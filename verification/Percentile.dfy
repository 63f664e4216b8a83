/**
 The percentile of the shadow evaluation (scripts/shadow_eval.py): linear interpolation
 between the closest ranks of the sorted values, over exact reals.
 */
module Percentile {
  import opened Arithmetic
  import opened Outcomes

  ghost predicate Ascending(xs: seq<real>) {
    forall i, j | 0 <= i <= j < |xs| :: xs[i] <= xs[j]
  }

  function Insert(x: real, xs: seq<real>): seq<real> {
    if xs == [] || x <= xs[0] then [x] + xs else [xs[0]] + Insert(x, xs[1..])
  }

  /** Python's sorted */
  function Sorted(values: seq<real>): seq<real> {
    if values == [] then [] else Insert(values[0], Sorted(values[1..]))
  }

  lemma {:induction false} InsertAdds(x: real, xs: seq<real>)
    ensures multiset(Insert(x, xs)) == multiset(xs) + multiset{x}
  {
    if xs != [] && x > xs[0] {
      InsertAdds(x, xs[1..]);
      assert xs == [xs[0]] + xs[1..];
    }
  }

  predicate Least(x: real, xs: seq<real>) {
    forall y | y in xs :: x <= y
  }

  lemma AscendingCons(x: real, xs: seq<real>)
    requires Ascending(xs) && Least(x, xs)
    ensures Ascending([x] + xs)
  {
    assert forall j | 0 < j <= |xs| :: ([x] + xs)[j] == xs[j - 1] && xs[j - 1] in xs;
  }

  lemma {:induction false} InsertAscends(x: real, xs: seq<real>)
    requires Ascending(xs)
    ensures Ascending(Insert(x, xs))
  {
    if xs == [] || x <= xs[0] {
      AscendingCons(x, xs);
    } else {
      InsertAscends(x, xs[1..]);
      InsertAdds(x, xs[1..]);
      forall y | y in Insert(x, xs[1..])
        ensures xs[0] <= y
      {
        assert y in multiset(Insert(x, xs[1..]));
      }
      AscendingCons(xs[0], Insert(x, xs[1..]));
    }
  }

  lemma {:induction false} SortedMeans(values: seq<real>)
    ensures Ascending(Sorted(values)) && multiset(Sorted(values)) == multiset(values) && |Sorted(values)| == |values|
  {
    if values != [] {
      SortedMeans(values[1..]);
      InsertAdds(values[0], Sorted(values[1..]));
      InsertAscends(values[0], Sorted(values[1..]));
      assert values == [values[0]] + values[1..];
      assert |multiset(Sorted(values))| == |multiset(values)|;
    }
  }

  /** Interpolation at a position of the sorted values. */
  function At(xs: seq<real>, idx: real): real
    requires 0.0 <= idx && idx.Floor < |xs|
  {
    var lo := idx.Floor;
    var hi := if lo + 1 <= |xs| - 1 then lo + 1 else |xs| - 1;
    xs[lo] + (xs[hi] - xs[lo]) * (idx - lo as real)
  }

  function Position(p: real, n: nat): real
    requires n > 0
  {
    p / 100.0 * (n - 1) as real
  }

  lemma FloorAtMost(x: real, k: int)
    requires 0.0 <= x <= k as real
    ensures 0 <= x.Floor <= k
  {
  }

  lemma ScaledInRange(f: real, m: real)
    requires 0.0 <= f <= 1.0 && 0.0 <= m
    ensures 0.0 <= f * m <= m
  {
  }

  lemma PositionInRange(p: real, n: nat)
    requires n > 0 && 0.0 <= p <= 100.0
    ensures 0.0 <= Position(p, n) <= (n - 1) as real && Position(p, n).Floor < n
  {
    var f, m := p / 100.0, (n - 1) as real;
    assert Position(p, n) == f * m;
    ScaledInRange(f, m);
    FloorAtMost(Position(p, n), n - 1);
  }

  /** percentile, for a percentage; no values raise. */
  function PercentileOf(values: seq<real>, p: real): Result<real>
    requires 0.0 <= p <= 100.0
  {
    if values == [] then Raised("percentile() of empty sequence")
    else
      SortedMeans(values);
      PositionInRange(p, |values|);
      Ok(At(Sorted(values), Position(p, |values|)))
  }

  /** An interpolated value lies between its neighbours. */
  lemma AtBetween(xs: seq<real>, idx: real)
    requires Ascending(xs) && 0.0 <= idx && idx.Floor < |xs|
    ensures var lo := idx.Floor;
            xs[lo] <= At(xs, idx) <= xs[if lo + 1 <= |xs| - 1 then lo + 1 else |xs| - 1]
  {
    var lo := idx.Floor;
    var hi := if lo + 1 <= |xs| - 1 then lo + 1 else |xs| - 1;
    Blend(xs[lo], xs[hi], idx - lo as real);
  }

  lemma Blend(a: real, b: real, f: real)
    requires a <= b && 0.0 <= f <= 1.0
    ensures a <= a + (b - a) * f <= b
  {
  }

  lemma BlendMore(a: real, b: real, f: real, g: real)
    requires a <= b && f <= g
    ensures a + (b - a) * f <= a + (b - a) * g
  {
  }

  lemma AtMonotone(xs: seq<real>, x: real, y: real)
    requires Ascending(xs) && 0.0 <= x <= y && y.Floor < |xs|
    ensures x.Floor < |xs| && At(xs, x) <= At(xs, y)
  {
    AtBetween(xs, x);
    AtBetween(xs, y);
    if x.Floor == y.Floor {
      var lo := x.Floor;
      var hi := if lo + 1 <= |xs| - 1 then lo + 1 else |xs| - 1;
      BlendMore(xs[lo], xs[hi], x - lo as real, y - lo as real);
    }
  }

  /** A percentile does not fall as p grows. */
  lemma PercentileMonotone(values: seq<real>, p: real, q: real)
    requires values != [] && 0.0 <= p <= q <= 100.0
    ensures PercentileOf(values, p).value <= PercentileOf(values, q).value
  {
    var n, m := |values|, (|values| - 1) as real;
    SortedMeans(values);
    PositionInRange(p, n);
    PositionInRange(q, n);
    MulLe(p / 100.0, q / 100.0, m);
    assert Position(p, n) <= Position(q, n);
    AtMonotone(Sorted(values), Position(p, n), Position(q, n));
  }

  /** The 0th percentile is the least value and the 100th the greatest. */
  lemma PercentileEnds(values: seq<real>, v: real)
    requires v in values
    ensures PercentileOf(values, 0.0).value in values && PercentileOf(values, 100.0).value in values
    ensures PercentileOf(values, 0.0).value <= v <= PercentileOf(values, 100.0).value
  {
    var n, xs := |values|, Sorted(values);
    SortedMeans(values);
    EndPositions(n);
    AtRank(xs, 0);
    AtRank(xs, n - 1);
    assert v in multiset(values) && v in xs;
    assert xs[0] in multiset(xs) && xs[n - 1] in multiset(xs);
  }

  lemma EndPositions(n: nat)
    requires n > 0
    ensures Position(0.0, n) == (0 as nat) as real && Position(100.0, n) == (n - 1) as real
  {
  }

  /** At a rank, the interpolation is the value of that rank. */
  lemma AtRank(xs: seq<real>, k: nat)
    requires k < |xs|
    ensures (k as real).Floor == k && At(xs, k as real) == xs[k]
  {
  }

  lemma SameLeast(xs: seq<real>, ys: seq<real>)
    requires Ascending(xs) && Ascending(ys) && multiset(xs) == multiset(ys) && xs != [] && ys != []
    ensures xs[0] == ys[0]
  {
    assert xs[0] in multiset(ys) && ys[0] in multiset(xs);
  }

  lemma TailOf(xs: seq<real>)
    requires xs != []
    ensures multiset(xs[1..]) == multiset(xs) - multiset{xs[0]}
  {
    assert xs == [xs[0]] + xs[1..];
  }

  lemma {:induction false} SortedIsUnique(xs: seq<real>, ys: seq<real>)
    requires Ascending(xs) && Ascending(ys) && multiset(xs) == multiset(ys)
    ensures xs == ys
  {
    assert |multiset(xs)| == |multiset(ys)|;
    if xs != [] {
      SameLeast(xs, ys);
      TailOf(xs);
      TailOf(ys);
      SortedIsUnique(xs[1..], ys[1..]);
      SameTail(xs, ys);
    }
  }

  lemma SameTail(xs: seq<real>, ys: seq<real>)
    requires xs != [] && ys != [] && xs[0] == ys[0] && xs[1..] == ys[1..]
    ensures xs == ys
  {
  }

  /** The percentage p of the n - 1 steps between n ranks is k steps and a share f of one. */
  ghost predicate FallsAt(p: real, n: nat, k: nat, f: real) {
    p * (n - 1) as real == 100.0 * (k as real + f)
  }

  /**
   Between two ranks: if p falls a share f of the way from rank k to the next, the percentile
   lies that share of the way between their values, in any ascending arrangement of the values.
   */
  lemma PercentileInterpolates(values: seq<real>, p: real, xs: seq<real>, k: nat, f: real)
    requires Ascending(xs) && multiset(xs) == multiset(values) && k < |xs|
    requires 0.0 <= p <= 100.0 && 0.0 <= f < 1.0 && FallsAt(p, |xs|, k, f)
    ensures f > 0.0 ==> k + 1 < |xs|
    ensures PercentileOf(values, p) == Ok(if f == 0.0 then xs[k] else Mixed(xs[k], xs[k + 1], f))
  {
    SortedMeans(values);
    assert |multiset(values)| == |multiset(xs)|;
    SortedIsUnique(xs, Sorted(values));
    InterpolatesSorted(values, p, xs, k, f);
  }

  lemma InterpolatesSorted(values: seq<real>, p: real, xs: seq<real>, k: nat, f: real)
    requires xs == Sorted(values) && k < |xs| == |values|
    requires 0.0 <= p <= 100.0 && 0.0 <= f < 1.0 && FallsAt(p, |xs|, k, f)
    ensures f > 0.0 ==> k + 1 < |xs|
    ensures PercentileOf(values, p) == Ok(if f == 0.0 then xs[k] else Mixed(xs[k], xs[k + 1], f))
  {
    RankOf(p, |xs|, k, f);
    AtBetweenRanks(xs, k, f);
  }

  /** The share 1 - f of a and the share f of b. */
  function Mixed(a: real, b: real, f: real): real {
    (1.0 - f) * a + f * b
  }

  lemma AtBetweenRanks(xs: seq<real>, k: nat, f: real)
    requires k < |xs| && 0.0 <= f < 1.0 && (f > 0.0 ==> k + 1 < |xs|)
    ensures (k as real + f).Floor == k && At(xs, k as real + f) == if f == 0.0 then xs[k] else Mixed(xs[k], xs[k + 1], f)
  {
    if f > 0.0 {
      Between(xs[k], xs[k + 1], f);
    }
  }

  lemma RankOf(p: real, n: nat, k: nat, f: real)
    requires k < n && 0.0 <= p <= 100.0 && 0.0 <= f < 1.0 && FallsAt(p, n, k, f)
    ensures Position(p, n) == k as real + f && Position(p, n).Floor == k && (f > 0.0 ==> k + 1 < n)
  {
    var m := (n - 1) as real;
    assert p / 100.0 * m == (p * m) / 100.0;
    MulLe(p, 100.0, m);
  }

  lemma Between(a: real, b: real, f: real)
    ensures a + (b - a) * f == Mixed(a, b, f)
  {
  }

  /** The median of two values is their mean. */
  lemma MedianOfTwo(x: real, y: real)
    ensures PercentileOf([x, y], 50.0) == Ok((x + y) / 2.0)
  {
    var xs := if x <= y then [x, y] else [y, x];
    assert multiset(xs) == multiset([x, y]);
    PercentileInterpolates([x, y], 50.0, xs, 0, 0.5);
    Halves(x, y);
  }

  lemma Halves(x: real, y: real)
    ensures Mixed(x, y, 0.5) == (x + y) / 2.0 == Mixed(y, x, 0.5)
  {
  }

  /** The order of the values does not matter. */
  lemma PercentileOfMultiset(values: seq<real>, others: seq<real>, p: real)
    requires 0.0 <= p <= 100.0 && multiset(values) == multiset(others)
    ensures PercentileOf(values, p) == PercentileOf(others, p)
  {
    SortedMeans(values);
    SortedMeans(others);
    assert |multiset(values)| == |multiset(others)|;
    SortedIsUnique(Sorted(values), Sorted(others));
  }
}
