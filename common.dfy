/** Small value types and sequence/set helpers shared by every module of the model. */
module Common {

  /** A value that may be missing: a pandas NaN, an absent dict key, a `None`. */
  datatype Option<T> = None | Some(value: T) {
    /** `d.get(k, default)` and "fall back to a default" in one place. */
    function GetOr(default: T): T {
      if Some? then value else default
    }
  }

  function Min(a: int, b: int): int { if a <= b then a else b }

  function MinReal(a: real, b: real): real { if a <= b then a else b }

  /** Python `set(xs)`. */
  function ToSet<T>(xs: seq<T>): set<T> {
    set x | x in xs
  }

  /** No element occurs twice. */
  predicate Distinct<T(==)>(xs: seq<T>) {
    forall i, j :: 0 <= i < j < |xs| ==> xs[i] != xs[j]
  }

  /** `xs` is `ys` with some elements left out, the rest kept in their order. */
  predicate Subsequence<T(==)>(xs: seq<T>, ys: seq<T>)
    decreases |ys|
  {
    xs == [] || (ys != [] && ((xs[0] == ys[0] && Subsequence(xs[1..], ys[1..])) || Subsequence(xs, ys[1..])))
  }

  /** Python `xs[:n]` for n >= 0: slicing past the end is not an error. */
  function Take<T>(xs: seq<T>, n: nat): (r: seq<T>)
    ensures |r| == Min(n, |xs|)
    ensures forall i :: 0 <= i < |r| ==> r[i] == xs[i]
  {
    if n <= |xs| then xs[..n] else xs
  }

  /** Number of occurrences of `x` in `xs` (Python `xs.count(x)`). */
  function Count<T(==)>(xs: seq<T>, x: T): nat {
    if xs == [] then 0
    else Count(xs[..|xs| - 1], x) + (if xs[|xs| - 1] == x then 1 else 0)
  }

  lemma {:induction false} CountAppend<T>(a: seq<T>, b: seq<T>, x: T)
    ensures Count(a + b, x) == Count(a, x) + Count(b, x)
  {
    if b == [] {
      assert a + b == a;
    } else {
      assert (a + b)[..|a + b| - 1] == a + b[..|b| - 1];
      CountAppend(a, b[..|b| - 1], x);
    }
  }

  /** The entries of `xs` in first-occurrence order, each once (the key order of a dict filled from `xs`). */
  function Dedup<T(==)>(xs: seq<T>): seq<T> {
    if xs == [] then []
    else
      var init := xs[..|xs| - 1];
      Dedup(init) + (if xs[|xs| - 1] in init then [] else [xs[|xs| - 1]])
  }

  lemma {:induction false} DedupProps<T>(xs: seq<T>)
    ensures Distinct(Dedup(xs))
    ensures ToSet(Dedup(xs)) == ToSet(xs)
  {
    if xs != [] {
      var init := xs[..|xs| - 1];
      var last := xs[|xs| - 1];
      DedupProps(init);
      assert xs == init + [last];
      if last in init {
        assert ToSet(xs) == ToSet(init);
      } else {
        assert ToSet(xs) == ToSet(init) + {last};
        assert last !in ToSet(Dedup(init));
        var d := Dedup(xs);
        assert d == Dedup(init) + [last];
        forall i, j | 0 <= i < j < |d| ensures d[i] != d[j] {
          if j == |d| - 1 {
            assert d[i] == Dedup(init)[i];
            assert d[i] in ToSet(Dedup(init));
          }
        }
        assert ToSet(d) == ToSet(Dedup(init)) + {last};
      }
    }
  }

  lemma {:induction false} CountPositive<T>(xs: seq<T>, x: T)
    ensures Count(xs, x) > 0 <==> x in xs
  {
    if xs != [] {
      CountPositive(xs[..|xs| - 1], x);
      assert xs == xs[..|xs| - 1] + [xs[|xs| - 1]];
    }
  }

  lemma {:induction false} CountBound<T>(xs: seq<T>, x: T)
    ensures Count(xs, x) <= |xs|
  {
    if xs != [] {
      CountBound(xs[..|xs| - 1], x);
    }
  }

  lemma SubsetCard<T>(a: set<T>, b: set<T>)
    requires a <= b
    ensures |a| <= |b|
  {
    assert b == a + (b - a);
  }

  /** Building a set from a list never gains elements. */
  lemma {:induction false} ToSetCard<T>(xs: seq<T>)
    ensures |ToSet(xs)| <= |xs|
  {
    if xs != [] {
      var init := xs[..|xs| - 1];
      ToSetCard(init);
      assert ToSet(xs) == ToSet(init) + {xs[|xs| - 1]};
    }
  }

  /** A list without repetitions has as many distinct elements as entries. */
  lemma {:induction false} DistinctCard<T>(xs: seq<T>)
    requires Distinct(xs)
    ensures |ToSet(xs)| == |xs|
  {
    if xs != [] {
      var init := xs[..|xs| - 1];
      DistinctCard(init);
      assert xs[|xs| - 1] !in ToSet(init);
      assert ToSet(xs) == ToSet(init) + {xs[|xs| - 1]};
    }
  }

  /** A list that repeats an entry has strictly fewer distinct elements than entries. */
  lemma {:induction false} DuplicateShrinks<T>(xs: seq<T>, i: nat, j: nat)
    requires i < j < |xs| && xs[i] == xs[j]
    ensures |ToSet(xs)| < |xs|
  {
    var init := xs[..|xs| - 1];
    if j == |xs| - 1 {
      ToSetCard(init);
      assert xs[j] in ToSet(init) by { assert init[i] == xs[j]; }
      assert ToSet(xs) == ToSet(init);
    } else {
      DuplicateShrinks(init, i, j);
      assert ToSet(xs) == ToSet(init) + {xs[|xs| - 1]};
    }
  }

  /**
   * `list(s)` for a Python set: the iteration order of a set is unspecified,
   * so this is a nondeterministic enumeration that promises every element once
   * and nothing about the order.
   */
  method SetToSeq<T>(s: set<T>) returns (xs: seq<T>)
    ensures ToSet(xs) == s && Distinct(xs) && |xs| == |s|
  {
    xs := [];
    var rest := s;
    while rest != {}
      invariant Enumerating(xs, rest, s)
      decreases |rest|
    {
      var x :| x in rest;
      EnumeratingStep(xs, rest, s, x);
      xs := xs + [x];
      rest := rest - {x};
    }
  }

  /** `xs` lists, once each, the elements of `s` not in `rest`. */
  predicate Enumerating<T>(xs: seq<T>, rest: set<T>, s: set<T>) {
    ToSet(xs) + rest == s && ToSet(xs) !! rest && Distinct(xs) && |xs| + |rest| == |s|
  }

  lemma EnumeratingStep<T>(xs: seq<T>, rest: set<T>, s: set<T>, x: T)
    requires Enumerating(xs, rest, s) && x in rest
    ensures Enumerating(xs + [x], rest - {x}, s)
  {
    ToSetSnoc(xs, x);
    DistinctSnoc(xs, x);
    assert |rest - {x}| == |rest| - 1;
  }

  lemma ToSetSnoc<T>(xs: seq<T>, x: T)
    ensures ToSet(xs + [x]) == ToSet(xs) + {x}
  {
  }

  lemma DistinctSnoc<T>(xs: seq<T>, x: T)
    requires Distinct(xs) && x !in ToSet(xs)
    ensures Distinct(xs + [x])
  {
    var ys := xs + [x];
    forall i, j | 0 <= i < j < |ys| ensures ys[i] != ys[j] {
      assert ys[i] == xs[i] && xs[i] in ToSet(xs);
      if j < |xs| {
        assert ys[j] == xs[j];
      }
    }
  }

  lemma ToSetConcat<T>(a: seq<T>, b: seq<T>)
    ensures ToSet(a + b) == ToSet(a) + ToSet(b)
  {
  }

  /** Two lists with an entry in common have fewer distinct elements together than entries. */
  lemma SharedEntryShrinks<T>(a: seq<T>, b: seq<T>, x: T)
    requires x in a && x in b
    ensures |ToSet(a + b)| < |a + b|
  {
    ToSetConcat(a, b);
    ToSetCard(a);
    ToSetCard(b);
    assert x in ToSet(a) * ToSet(b);
    SubsetCard({x}, ToSet(a) * ToSet(b));
  }

  /** A count over a larger positive count is a fraction in [0, 1]. */
  lemma DivAtMostOne(x: nat, y: nat)
    requires 0 < y && x <= y
    ensures 0.0 <= (x as real) / (y as real) <= 1.0
  {
  }
}
