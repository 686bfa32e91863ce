/**
 * Sequence facts shared by the list-building code of the application:
 * duplicate-free lists, order-preserving sublists (what `Array.filter`
 * returns) and `Array.from(new Set(xs))`, which keeps the first occurrence
 * of every element.
 */
module Seqs {

  /** No element occurs twice. */
  predicate Distinct<T(==)>(xs: seq<T>) {
    forall i, j :: 0 <= i < j < |xs| ==> xs[i] != xs[j]
  }

  /** `a` is `b` with some elements left out and the rest in their original order. */
  predicate IsSubseq<T(==)>(a: seq<T>, b: seq<T>)
    decreases |b|
  {
    if a == [] then true
    else if b == [] then false
    else if a[0] == b[0] then IsSubseq(a[1..], b[1..])
    else IsSubseq(a, b[1..])
  }

  lemma {:induction false} SubseqElements<T>(a: seq<T>, b: seq<T>)
    requires IsSubseq(a, b)
    ensures forall x :: x in a ==> x in b
    ensures |a| <= |b|
    decreases |b|
  {
    if a != [] {
      if a[0] == b[0] {
        SubseqElements(a[1..], b[1..]);
        forall x | x in a ensures x in b {
          if x != a[0] { assert x in a[1..]; }
        }
      } else {
        SubseqElements(a, b[1..]);
      }
    }
  }

  /** A sublist of a duplicate-free list is duplicate-free. */
  lemma {:induction false} SubseqOfDistinct<T>(a: seq<T>, b: seq<T>)
    requires IsSubseq(a, b) && Distinct(b)
    ensures Distinct(a)
    decreases |b|
  {
    if a != [] {
      assert Distinct(b[1..]);
      if a[0] == b[0] {
        SubseqOfDistinct(a[1..], b[1..]);
        SubseqElements(a[1..], b[1..]);
        forall j | 0 < j < |a| ensures a[0] != a[j] {
          assert a[j] == a[1..][j - 1];
          assert a[j] in b[1..];
        }
      } else {
        SubseqOfDistinct(a, b[1..]);
      }
    }
  }

  lemma {:induction false} SubseqRefl<T>(a: seq<T>)
    ensures IsSubseq(a, a)
    decreases |a|
  {
    if a != [] { SubseqRefl(a[1..]); }
  }

  /** `Array.from(new Set(xs))`: the first occurrence of every element, in order. */
  function Dedup<T(==)>(xs: seq<T>): (r: seq<T>)
    ensures Distinct(r)
    ensures forall i :: 0 <= i < |r| ==> r[i] in xs
    ensures forall i :: 0 <= i < |xs| ==> xs[i] in r
    ensures |r| <= |xs|
  {
    if xs == [] then []
    else
      var d := Dedup(xs[..|xs| - 1]);
      var last := xs[|xs| - 1];
      assert xs == xs[..|xs| - 1] + [last];
      if last in d then d else d + [last]
  }

  /** Deduplicating a duplicate-free list changes nothing. */
  lemma {:induction false} DedupOfDistinct<T>(xs: seq<T>)
    requires Distinct(xs)
    ensures Dedup(xs) == xs
    decreases |xs|
  {
    if xs != [] {
      var init := xs[..|xs| - 1];
      assert Distinct(init);
      DedupOfDistinct(init);
      assert xs[|xs| - 1] !in init;
      assert init + [xs[|xs| - 1]] == xs;
    }
  }

  /** `xs.filter(x => x != v)` */
  function Remove<T(==)>(xs: seq<T>, v: T): (r: seq<T>)
    ensures v !in r
    ensures forall i :: 0 <= i < |r| ==> r[i] in xs
    ensures forall i :: 0 <= i < |xs| && xs[i] != v ==> xs[i] in r
    ensures IsSubseq(r, xs)
    ensures |r| <= |xs|
    ensures v in xs ==> |r| < |xs|
  {
    if xs == [] then []
    else if xs[0] == v then
      var t := Remove(xs[1..], v);
      SkipHead(t, xs);
      t
    else
      var t := Remove(xs[1..], v);
      assert ([xs[0]] + t)[1..] == t;
      [xs[0]] + t
  }

  /** A sublist of the tail of `b` is a sublist of `b`. */
  lemma {:induction false} SkipHead<T>(a: seq<T>, b: seq<T>)
    requires b != [] && IsSubseq(a, b[1..])
    ensures IsSubseq(a, b)
    decreases |b|, 0
  {
    if a != [] && a[0] == b[0] {
      SubseqTail(a, b[1..]);
    }
  }

  /** A sublist of `b` is a sublist of `b` with anything put in front. */
  lemma {:induction false} SubseqPrefix<T>(a: seq<T>, p: seq<T>, b: seq<T>)
    requires IsSubseq(a, b)
    ensures IsSubseq(a, p + b)
    decreases |p|
  {
    if p == [] {
      assert p + b == b;
    } else {
      SubseqPrefix(a, p[1..], b);
      assert (p + b)[1..] == p[1..] + b;
      SkipHead(a, p + b);
    }
  }

  /** Sublists of two lists, put together, are a sublist of the two lists put together. */
  lemma {:induction false} SubseqConcat<T>(a1: seq<T>, b1: seq<T>, a2: seq<T>, b2: seq<T>)
    requires IsSubseq(a1, b1) && IsSubseq(a2, b2)
    ensures IsSubseq(a1 + a2, b1 + b2)
    decreases |b1|
  {
    if a1 == [] {
      assert a1 + a2 == a2;
      SubseqPrefix(a2, b1, b2);
    } else {
      assert (a1 + a2)[0] == a1[0] && (b1 + b2)[0] == b1[0];
      assert (b1 + b2)[1..] == b1[1..] + b2;
      if a1[0] == b1[0] {
        assert (a1 + a2)[1..] == a1[1..] + a2;
        SubseqConcat(a1[1..], b1[1..], a2, b2);
      } else {
        SubseqConcat(a1, b1[1..], a2, b2);
      }
    }
  }

  /** Dropping the head of a sublist keeps it a sublist. */
  lemma {:induction false} SubseqTail<T>(a: seq<T>, b: seq<T>)
    requires a != [] && IsSubseq(a, b)
    ensures IsSubseq(a[1..], b)
    decreases |b|, 1
  {
    if a[0] == b[0] {
      SkipHead(a[1..], b);
    } else {
      SubseqTail(a, b[1..]);
      SkipHead(a[1..], b);
    }
  }

  /** Removing a value that does not occur changes nothing. */
  lemma {:induction false} RemoveAbsent<T>(xs: seq<T>, v: T)
    requires v !in xs
    ensures Remove(xs, v) == xs
    decreases |xs|
  {
    if xs != [] {
      assert v !in xs[1..];
      RemoveAbsent(xs[1..], v);
    }
  }

  /** Removing a value from a list ending in it, where it occurs nowhere else, drops the end. */
  lemma {:induction false} RemoveAppended<T>(xs: seq<T>, v: T)
    requires v !in xs
    ensures Remove(xs + [v], v) == xs
    decreases |xs|
  {
    if xs == [] {
      assert ([v])[1..] == [];
    } else {
      assert (xs + [v])[1..] == xs[1..] + [v];
      assert v !in xs[1..];
      RemoveAppended(xs[1..], v);
    }
  }

  /** Removing from two lists put together removes from each. */
  lemma {:induction false} RemoveConcat<T>(xs: seq<T>, ys: seq<T>, v: T)
    ensures Remove(xs + ys, v) == Remove(xs, v) + Remove(ys, v)
    decreases |xs|
  {
    if xs == [] {
      assert xs + ys == ys;
    } else {
      assert (xs + ys)[0] == xs[0];
      assert (xs + ys)[1..] == xs[1..] + ys;
      RemoveConcat(xs[1..], ys, v);
    }
  }

  /** Removing a value twice is removing it once. */
  lemma RemoveIdempotent<T>(xs: seq<T>, v: T)
    ensures Remove(Remove(xs, v), v) == Remove(xs, v)
  {
    RemoveAbsent(Remove(xs, v), v);
  }

  lemma {:induction false} RemoveDistinct<T>(xs: seq<T>, v: T)
    requires Distinct(xs)
    ensures Distinct(Remove(xs, v))
  {
    SubseqOfDistinct(Remove(xs, v), xs);
  }
}
