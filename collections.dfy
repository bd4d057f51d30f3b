/**
 * The three array operations the dashboard's statistics are built from:
 * `Array.prototype.filter`, `Array.prototype.map` and the size of a `Set`
 * built from an array.
 */
module Collections {

  /** The elements of `s` that satisfy `p`, in their original order. */
  function Filter<T(==,!new)>(s: seq<T>, p: T -> bool): (r: seq<T>)
    ensures |r| <= |s|
    ensures forall x :: x in r <==> x in s && p(x)
  {
    if s == [] then []
    else
      assert s == [s[0]] + s[1..];
      (if p(s[0]) then [s[0]] else []) + Filter(s[1..], p)
  }

  /** `f` applied to every element of `s`, position by position. */
  function Map<T, U>(s: seq<T>, f: T -> U): (r: seq<U>)
    ensures |r| == |s|
    ensures forall i :: 0 <= i < |s| ==> r[i] == f(s[i])
  {
    seq(|s|, i requires 0 <= i < |s| => f(s[i]))
  }

  /**
   * The set of the elements of `xs` (`new Set(xs)`): it holds exactly the
   * elements of `xs`, is no larger than `xs`, and is empty only for the empty
   * sequence.
   */
  function ToSet<T(==,!new)>(xs: seq<T>): (r: set<T>)
    ensures forall x :: x in r <==> x in xs
    ensures |r| <= |xs|
    ensures |r| == 0 <==> xs == []
  {
    if xs == [] then {}
    else
      assert xs == [xs[0]] + xs[1..];
      {xs[0]} + ToSet(xs[1..])
  }

  /** Filtering distributes over concatenation, so filtering keeps the order of the input. */
  lemma {:induction false} FilterAppend<T(!new)>(s: seq<T>, t: seq<T>, p: T -> bool)
    ensures Filter(s + t, p) == Filter(s, p) + Filter(t, p)
  {
    if s == [] {
      assert s + t == t;
    } else {
      assert (s + t)[1..] == s[1..] + t;
      FilterAppend(s[1..], t, p);
    }
  }

  /** Two filters whose predicates are complementary split the input between them. */
  lemma {:induction false} FilterSplit<T(!new)>(s: seq<T>, p: T -> bool, q: T -> bool)
    requires forall x :: q(x) == !p(x)
    ensures |Filter(s, p)| + |Filter(s, q)| == |s|
  {
    if s != [] {
      FilterSplit(s[1..], p, q);
    }
  }

  /** A filter selects nothing exactly when no position of the input satisfies the predicate. */
  lemma FilterEmpty<T(!new)>(s: seq<T>, p: T -> bool)
    ensures Filter(s, p) == [] <==> forall i :: 0 <= i < |s| ==> !p(s[i])
  {
  }

  /** Adding an element to the sequence adds it to the set, and nothing else. */
  lemma ToSetAppend<T(!new)>(xs: seq<T>, x: T)
    ensures ToSet(xs + [x]) == ToSet(xs) + {x}
  {
  }

  /** The set grows by one exactly when the added element is new. */
  lemma ToSetAppendCardinality<T(!new)>(xs: seq<T>, x: T)
    ensures x in xs ==> |ToSet(xs + [x])| == |ToSet(xs)|
    ensures x !in xs ==> |ToSet(xs + [x])| == |ToSet(xs)| + 1
  {
    ToSetAppend(xs, x);
    if x in xs {
      assert x in ToSet(xs);
      assert ToSet(xs) + {x} == ToSet(xs);
    } else {
      assert x !in ToSet(xs);
    }
  }
}
