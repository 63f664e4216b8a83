/**
 The forward-test arithmetic (tradingagents/backtest/simulator.py): closes to
 signal-adjusted returns, and returns to drawdown, win rate and the terms of the Sharpe
 ratio, over exact reals.
 */
module ForwardTest {
  import opened Arithmetic
  import opened Outcomes
  import opened Text

  /** BUY is long, HOLD flat, SELL short, in any case and among blanks; anything else raises. */
  function PositionFromDecision(decision: string): (r: Result<int>)
    ensures r == Ok(1) <==> Says(decision, "BUY")
    ensures r == Ok(0) <==> Says(decision, "HOLD")
    ensures r == Ok(-1) <==> Says(decision, "SELL")
    ensures r.Raised? <==> !Says(decision, "BUY") && !Says(decision, "HOLD") && !Says(decision, "SELL")
  {
    SaysIs(decision, "BUY");
    SaysIs(decision, "HOLD");
    SaysIs(decision, "SELL");
    var key := Upper(Strip(decision));
    if key == "BUY" then Ok(1)
    else if key == "HOLD" then Ok(0)
    else if key == "SELL" then Ok(-1)
    else Raised("Unknown decision")
  }

  /** Lower case and blanks around the word do not matter. */
  lemma CaseAndBlanksDoNotMatter(pre: string, w: string, post: string, word: string)
    requires word == "BUY" || word == "HOLD" || word == "SELL"
    requires |w| == |word| && forall i | 0 <= i < |w| :: w[i] == word[i] || w[i] == word[i] - 'A' + 'a'
    requires forall i | 0 <= i < |pre| :: pre[i] == ' ' || pre[i] == '\t' || pre[i] == '\n'
    requires forall i | 0 <= i < |post| :: post[i] == ' ' || post[i] == '\t' || post[i] == '\n'
    ensures PositionFromDecision(pre + w + post) == PositionFromDecision(word)
         == Ok(if word == "BUY" then 1 else if word == "HOLD" then 0 else -1)
  {
    SaysSpelled(pre + w + post, pre, w, post, word);
    assert "" + word + "" == word;
    SaysSpelled(word, "", word, "", word);
  }

  // ----- returns -----

  /** Dividing by a zero close raises; only the last close is never a divisor. */
  ghost predicate Divisible(closes: seq<real>) {
    forall i | 0 <= i < |closes| - 1 :: closes[i] != 0.0
  }

  ghost function Return(closes: seq<real>, position: int, i: nat): real
    requires i + 1 < |closes| && Divisible(closes)
  {
    position as real * ((closes[i + 1] - closes[i]) / closes[i])
  }

  method ComputeReturns(closes: seq<real>, position: int) returns (r: Result<seq<real>>)
    ensures r.Ok? <==> Divisible(closes)
    ensures r.Ok? ==> |r.value| == if |closes| < 2 then 0 else |closes| - 1
    ensures r.Ok? ==> forall i | 0 <= i < |r.value| :: r.value[i] == Return(closes, position, i)
  {
    if |closes| < 2 {
      return Ok([]);
    }
    var out: seq<real> := [];
    for i := 0 to |closes| - 1
      invariant |out| == i
      invariant forall k | 0 <= k < i :: closes[k] != 0.0
      invariant forall k | 0 <= k < i :: out[k] == position as real * ((closes[k + 1] - closes[k]) / closes[k])
    {
      if closes[i] == 0.0 {
        return Raised("float division by zero");
      }
      var raw := (closes[i + 1] - closes[i]) / closes[i];
      out := out + [position as real * raw];
    }
    return Ok(out);
  }

  /** The gain is the price change in the position's direction, as a share of the price before. */
  ghost predicate Earns(gain: real, before: real, after: real, position: int) {
    gain * before == position as real * (after - before)
  }

  function TotalReturn(entry: real, exit: real, position: int): (r: Result<real>)
    ensures r.Ok? <==> entry > 0.0
    ensures r.Ok? ==> Earns(r.value, entry, exit, position)
  {
    if entry <= 0.0 then Raised("entry price must be positive")
    else
      DivMul(position as real * (exit - entry), entry);
      Ok(position as real * (exit - entry) / entry)
  }

  /** A short returns the opposite of a long, and a flat position nothing, in total and from bar to bar. */
  lemma ShortMirrorsLong(entry: real, exit: real, closes: seq<real>, i: nat)
    requires entry > 0.0 && i + 1 < |closes| && Divisible(closes)
    ensures TotalReturn(entry, exit, -1).value == -TotalReturn(entry, exit, 1).value
    ensures TotalReturn(entry, exit, 0).value == 0.0
    ensures TotalReturn(entry, exit, 1).value > 0.0 <==> exit > entry
    ensures Return(closes, -1, i) == -Return(closes, 1, i) && Return(closes, 0, i) == 0.0
  {
  }

  // ----- equity and drawdown -----

  /** The compounded equity after the first k series, starting from 1. */
  ghost function Equity(series: seq<real>, k: nat): real
    requires k <= |series|
  {
    if k == 0 then 1.0 else Equity(series, k - 1) * (1.0 + series[k - 1])
  }

  ghost function HighestTo(series: seq<real>, k: nat): (h: real)
    requires k <= |series|
    ensures h >= 1.0
  {
    if k == 0 then 1.0
    else if Equity(series, k) > HighestTo(series, k - 1) then Equity(series, k)
    else HighestTo(series, k - 1)
  }

  /** The lowest point of the curve relative to the highest before it, up to point k. */
  ghost function DrawdownTo(series: seq<real>, k: nat): (d: real)
    requires k <= |series|
    ensures d <= 0.0
  {
    if k == 0 then 0.0
    else
      var d := Equity(series, k) / HighestTo(series, k) - 1.0;
      if d < DrawdownTo(series, k - 1) then d else DrawdownTo(series, k - 1)
  }

  /** Every return is above -100%. */
  ghost predicate Solvent(series: seq<real>) {
    forall r | r in series :: r > -1.0
  }

  /** The decline from point i of the equity curve to the later point j. */
  ghost function Decline(series: seq<real>, i: nat, j: nat): real
    requires Solvent(series) && i <= j <= |series|
    ensures Decline(series, i, j) > -1.0
  {
    EquityPositive(series, i);
    EquityPositive(series, j);
    RatioPositive(Equity(series, j), Equity(series, i));
    Equity(series, j) / Equity(series, i) - 1.0
  }

  lemma RatioPositive(x: real, y: real)
    requires x > 0.0 && y > 0.0
    ensures x / y > 0.0
  {
  }

  lemma {:induction false} EquityPositive(series: seq<real>, k: nat)
    requires Solvent(series) && k <= |series|
    ensures Equity(series, k) > 0.0
  {
    if k > 0 {
      EquityPositive(series, k - 1);
      assert series[k - 1] in series;
      PositiveProduct(Equity(series, k - 1), 1.0 + series[k - 1]);
    }
  }

  lemma PositiveProduct(x: real, y: real)
    requires x > 0.0 && y > 0.0
    ensures x * y > 0.0
  {
  }

  /** Dividing by a larger divisor gives a smaller quotient. */
  lemma LargerDivisor(x: real, y: real, z: real)
    requires x > 0.0 && 0.0 < y <= z
    ensures x / z <= x / y
  {
  }

  /** Point `top` is the highest of the first k points of the curve. */
  ghost predicate Peak(series: seq<real>, k: nat, top: nat)
    requires k <= |series|
  {
    top <= k && forall i | 0 <= i <= k :: Equity(series, i) <= Equity(series, top)
  }

  /** No decline within the first k points is worse than `worst`. */
  ghost predicate NoneWorse(series: seq<real>, k: nat, worst: real)
    requires Solvent(series) && k <= |series|
  {
    forall i, j | 0 <= i <= j <= k :: worst <= Decline(series, i, j)
  }

  /** The worst decline is attained by some pair of points. */
  ghost predicate Attained(series: seq<real>, worst: real)
    requires Solvent(series)
  {
    exists i, j | 0 <= i <= j <= |series| :: worst == Decline(series, i, j)
  }

  /** The decline from the peak is the worst of all declines to the same point. */
  lemma PeakIsWorstStart(series: seq<real>, k: nat, top: nat, worst: real)
    requires Solvent(series) && k < |series|
    requires Peak(series, k + 1, top) && NoneWorse(series, k, worst)
    requires worst <= Decline(series, top, k + 1)
    ensures NoneWorse(series, k + 1, worst)
  {
    forall i, j | 0 <= i <= j <= k + 1
      ensures worst <= Decline(series, i, j)
    {
      if j == k + 1 {
        EquityPositive(series, i);
        EquityPositive(series, j);
        LargerDivisor(Equity(series, j), Equity(series, i), Equity(series, top));
      }
    }
  }

  /** The drawdown is the decline between two points of the curve, and no other decline is worse. */
  lemma {:induction false} DrawdownIsWorst(series: seq<real>, k: nat) returns (top: nat, from: nat, to: nat)
    requires Solvent(series) && k <= |series|
    ensures Peak(series, k, top) && HighestTo(series, k) == Equity(series, top)
    ensures from <= to <= k && DrawdownTo(series, k) == Decline(series, from, to)
    ensures NoneWorse(series, k, DrawdownTo(series, k))
  {
    if k == 0 {
      top, from, to := 0, 0, 0;
    } else {
      top, from, to := DrawdownIsWorst(series, k - 1);
      if Equity(series, k) > Equity(series, top) {
        top := k;
      }
      var d := Decline(series, top, k);
      assert d == Equity(series, k) / HighestTo(series, k) - 1.0;
      if d < Decline(series, from, to) {
        from, to := top, k;
      }
      PeakIsWorstStart(series, k - 1, top, DrawdownTo(series, k));
    }
  }

  /**
   The result is the worst decline: the minimum, over all i <= j, of
   equity_j / equity_i - 1. So it lies in (-1, 0].
   */
  method MaxDrawdown(series: seq<real>) returns (worst: real)
    ensures worst == DrawdownTo(series, |series|)
    ensures worst <= 0.0 && (Solvent(series) ==> worst > -1.0)
    ensures Solvent(series) ==> NoneWorse(series, |series|, worst) && Attained(series, worst)
  {
    var equity, peak := 1.0, 1.0;
    worst := 0.0;
    for k := 0 to |series|
      invariant equity == Equity(series, k) && peak == HighestTo(series, k) && worst == DrawdownTo(series, k)
    {
      equity := equity * (1.0 + series[k]);
      assert equity == Equity(series, k + 1);
      if equity > peak {
        peak := equity;
      }
      var dd := equity / peak - 1.0;
      if dd < worst {
        worst := dd;
      }
    }
    if Solvent(series) {
      var top, from, to := DrawdownIsWorst(series, |series|);
    }
  }

  /** The places of the strictly positive returns among the first n. */
  ghost function Winning(series: seq<real>, n: nat): set<nat>
    requires n <= |series|
  {
    set i: nat | i < n && series[i] > 0.0
  }

  function Wins(series: seq<real>, n: nat): (wins: nat)
    requires n <= |series|
    ensures wins <= n
  {
    if n == 0 then 0 else Wins(series, n - 1) + if series[n - 1] > 0.0 then 1 else 0
  }

  lemma {:induction false} WinsAreCounted(series: seq<real>, n: nat)
    requires n <= |series|
    ensures Wins(series, n) == |Winning(series, n)|
    ensures Wins(series, n) == n <==> forall i | 0 <= i < n :: series[i] > 0.0
  {
    if n > 0 {
      WinsAreCounted(series, n - 1);
      if series[n - 1] > 0.0 {
        assert Winning(series, n) == Winning(series, n - 1) + {n - 1};
      } else {
        assert Winning(series, n) == Winning(series, n - 1);
      }
    }
  }

  lemma AllByPlace(series: seq<real>)
    ensures (forall x | x in series :: x > 0.0) <==> forall i | 0 <= i < |series| :: series[i] > 0.0
  {
    assert forall i | 0 <= i < |series| :: series[i] in series;
  }

  /** The share of strictly positive returns; it is full exactly if there are returns and all are positive. */
  function WinRate(series: seq<real>): (r: real)
    ensures if series == [] then r == 0.0 else r * |series| as real == |Winning(series, |series|)| as real
    ensures 0.0 <= r <= 1.0
    ensures r == 1.0 <==> series != [] && forall x | x in series :: x > 0.0
  {
    if series == [] then 0.0
    else
      WinsAreCounted(series, |series|);
      AllByPlace(series);
      RatioBounds(Wins(series, |series|), |series|);
      DivMul(Wins(series, |series|) as real, |series| as real);
      Wins(series, |series|) as real / |series| as real
  }

  // ----- the terms of the Sharpe ratio -----

  /** 0 when degenerate; else the mean over the root of the variance, annualised. The roots are not taken here. */
  datatype Sharpe = Degenerate | Ratio(mean: real, variance: real)

  function Sum(series: seq<real>, n: nat): real
    requires n <= |series|
  {
    if n == 0 then 0.0 else Sum(series, n - 1) + series[n - 1]
  }

  function Times(x: real, y: real): (z: real)
    ensures x > 0.0 && y > 0.0 ==> z > 0.0
    ensures x == 0.0 ==> z == 0.0
  {
    x * y
  }

  function Square(x: real): (y: real)
    ensures if x == 0.0 then y == 0.0 else y > 0.0
  {
    if x < 0.0 then Times(-x, -x) else Times(x, x)
  }

  /** The sum of the squared distances from `mean`. */
  function Spread(series: seq<real>, mean: real, n: nat): (y: real)
    requires n <= |series|
    ensures y >= 0.0 && (y == 0.0 <==> forall i | 0 <= i < n :: series[i] == mean)
  {
    if n == 0 then 0.0 else Spread(series, mean, n - 1) + Square(series[n - 1] - mean)
  }

  lemma {:induction false} SumOfEquals(series: seq<real>, n: nat)
    requires 0 < |series| && n <= |series| && forall i | 0 <= i < |series| :: series[i] == series[0]
    ensures Sum(series, n) == n as real * series[0]
  {
    if n > 0 {
      SumOfEquals(series, n - 1);
      OneTermMore(n - 1, series[0]);
    }
  }

  lemma OneTermMore(n: nat, x: real)
    ensures n as real * x + x == (n + 1) as real * x
  {
  }

  lemma QuotientIsZero(x: real, d: real)
    requires d > 0.0
    ensures x / d == 0.0 <==> x == 0.0
    ensures x >= 0.0 ==> x / d >= 0.0
  {
    DivMul(x, d);
  }

  /** The sample variance vanishes exactly if all returns are equal. */
  function SharpeTerms(series: seq<real>): (r: Sharpe)
    ensures r.Degenerate? <==> forall x, y | x in series && y in series :: x == y
    ensures r.Ratio? ==> |series| >= 2 && r.mean * |series| as real == Sum(series, |series|) && r.variance > 0.0
    ensures r.Ratio? ==> r.variance * (|series| - 1) as real == Spread(series, r.mean, |series|)
  {
    if |series| < 2 then Degenerate
    else
      var n := |series| as real;
      var mean := Sum(series, |series|) / n;
      var spread := Spread(series, mean, |series|);
      var variance := spread / (n - 1.0);
      DivMul(Sum(series, |series|), n);
      DivMul(spread, n - 1.0);
      QuotientIsZero(spread, n - 1.0);
      EqualsHaveNoSpread(series, mean);
      if variance == 0.0 then Degenerate else Ratio(mean, variance)
  }

  /** How the spread of n returns with this sum grows when it is taken from x in place of `mean`. */
  ghost predicate Moved(spread: real, more: real, mean: real, x: real, n: real, sum: real) {
    more == spread + 2.0 * (mean - x) * (sum - n * mean) + n * ((mean - x) * (mean - x))
  }

  lemma SpreadStep(spread: real, more: real, mean: real, x: real, n: real, sum: real, r: real)
    requires Moved(spread, more, mean, x, n, sum)
    ensures Moved(spread + Square(r - mean), more + Square(r - x), mean, x, n + 1.0, sum + r)
  {
    var d := mean - x;
    assert (r - x) * (r - x) == (r - mean) * (r - mean) + 2.0 * d * (r - mean) + d * d;
    assert 2.0 * d * (sum + r - (n + 1.0) * mean) == 2.0 * d * (sum - n * mean) + 2.0 * d * (r - mean);
    assert (n + 1.0) * (d * d) == n * (d * d) + d * d;
    SquareIs(r - mean);
    SquareIs(r - x);
  }

  lemma SquareIs(x: real)
    ensures Square(x) == x * x
  {
  }

  lemma {:induction false} SpreadMoves(series: seq<real>, mean: real, x: real, n: nat)
    requires n <= |series|
    ensures Moved(Spread(series, mean, n), Spread(series, x, n), mean, x, n as real, Sum(series, n))
  {
    if n > 0 {
      SpreadMoves(series, mean, x, n - 1);
      SpreadStep(Spread(series, mean, n - 1), Spread(series, x, n - 1), mean, x, (n - 1) as real, Sum(series, n - 1), series[n - 1]);
    }
  }

  /** The mean is the only point with the least spread: any other lies farther from the returns. */
  lemma MeanHasLeastSpread(series: seq<real>, mean: real, x: real)
    requires series != [] && mean * |series| as real == Sum(series, |series|)
    ensures if x == mean then Spread(series, x, |series|) == Spread(series, mean, |series|)
            else Spread(series, x, |series|) > Spread(series, mean, |series|)
  {
    SpreadMoves(series, mean, x, |series|);
    LeastAt(Spread(series, mean, |series|), Spread(series, x, |series|), mean, x, |series| as real, Sum(series, |series|));
  }

  lemma LeastAt(spread: real, more: real, mean: real, x: real, n: real, sum: real)
    requires n > 0.0 && mean * n == sum && Moved(spread, more, mean, x, n, sum)
    ensures if x == mean then more == spread else more > spread
  {
    assert sum - n * mean == 0.0;
    assert 2.0 * (mean - x) * (sum - n * mean) == 0.0;
    if x != mean {
      SquareIs(mean - x);
      PositiveProduct(n, (mean - x) * (mean - x));
    }
  }

  lemma EqualsHaveNoSpread(series: seq<real>, mean: real)
    requires |series| > 0 && mean * |series| as real == Sum(series, |series|)
    ensures Spread(series, mean, |series|) == 0.0 <==> forall x, y | x in series && y in series :: x == y
  {
    if forall x, y | x in series && y in series :: x == y {
      assert forall i | 0 <= i < |series| :: series[i] in series;
      SumOfEquals(series, |series|);
      DivIs(Sum(series, |series|), |series| as real, mean);
      DivIs(Sum(series, |series|), |series| as real, series[0]);
    }
    if Spread(series, mean, |series|) == 0.0 {
      assert forall i | 0 <= i < |series| :: series[i] == mean;
    }
  }

  // ----- compounding telescopes -----

  ghost predicate LongReturns(closes: seq<real>, series: seq<real>) {
    && |closes| > 0
    && (forall c | c in closes :: c > 0.0)
    && |series| == |closes| - 1
    && Divisible(closes)
    && forall i | 0 <= i < |series| :: series[i] == Return(closes, 1, i)
  }

  lemma {:induction false} CompoundingTelescopes(closes: seq<real>, series: seq<real>, k: nat)
    requires LongReturns(closes, series) && k < |closes|
    ensures closes[0] in closes && Equity(series, k) == closes[k] / closes[0]
  {
    if k > 0 {
      CompoundingTelescopes(closes, series, k - 1);
      var prev, next, first := closes[k - 1], closes[k], closes[0];
      assert first in closes && prev in closes;
      Telescope(first, prev, next);
    } else {
      assert closes[0] in closes;
    }
  }

  lemma Telescope(first: real, prev: real, next: real)
    requires first > 0.0 && prev > 0.0
    ensures (prev / first) * (1.0 + 1.0 * ((next - prev) / prev)) == next / first
  {
  }

  lemma {:induction false} LongIsSolvent(closes: seq<real>, series: seq<real>)
    requires LongReturns(closes, series)
    ensures Solvent(series)
  {
    forall r | r in series
      ensures r > -1.0
    {
      var i: nat :| i < |series| && series[i] == r;
      var prev, next := closes[i], closes[i + 1];
      assert prev in closes && next in closes;
      RatioPositive(next, prev);
      DivMul(next - prev, prev);
      DivMul(next, prev);
      assert ((next - prev) / prev + 1.0) * prev == next;
      DivIs(next, prev, (next - prev) / prev + 1.0);
    }
  }

  /**
   Compounding the long return series over positive closes gives exactly one plus
   the total return from the first close to the last, and the worst decline is
   never above that total return.
   */
  lemma CompoundedIsTotalReturn(closes: seq<real>, series: seq<real>, worst: real)
    requires LongReturns(closes, series)
    ensures TotalReturn(closes[0], closes[|closes| - 1], 1).Ok?
    ensures Equity(series, |series|) == 1.0 + TotalReturn(closes[0], closes[|closes| - 1], 1).value
    ensures Solvent(series)
    ensures NoneWorse(series, |series|, worst) ==> worst <= TotalReturn(closes[0], closes[|closes| - 1], 1).value
  {
    var first, last := closes[0], closes[|closes| - 1];
    CompoundingTelescopes(closes, series, |closes| - 1);
    LongIsSolvent(closes, series);
    DivMul(last, first);
    DivIs(1.0 * (last - first), first, last / first - 1.0);
    assert Decline(series, 0, |series|) == Equity(series, |series|) - 1.0;
  }

  /** The return from one entry price is that from another exactly if they are equal. */
  lemma EntryDecides(first: real, entry: real, last: real)
    requires first > 0.0 && entry > 0.0 && last > 0.0
    ensures TotalReturn(first, last, 1) == TotalReturn(entry, last, 1) <==> first == entry
  {
    if TotalReturn(first, last, 1) == TotalReturn(entry, last, 1) {
      var q := 1.0 * (last - first) / first;
      DivMul(1.0 * (last - first), first);
      DivMul(1.0 * (last - entry), entry);
      SameQuotient(first, entry, last, q + 1.0);
    }
  }

  lemma SameQuotient(first: real, entry: real, last: real, q: real)
    requires q * first == last && q * entry == last && last > 0.0
    ensures first == entry
  {
    assert q != 0.0;
    assert q * (first - entry) == 0.0;
  }

  /**
   A long series over positive closes: equity and drawdown agree, and so does the total return
   from an entry price, exactly if that is the first close.
   */
  lemma LongSeriesAddsUp(closes: seq<real>, series: seq<real>, entry: real)
    requires LongReturns(closes, series) && entry > 0.0
    ensures TotalReturn(entry, closes[|closes| - 1], 1).Ok?
    ensures var total, drawdown := TotalReturn(entry, closes[|closes| - 1], 1).value, DrawdownTo(series, |series|);
            && (Equity(series, |series|) == 1.0 + total <==> closes[0] == entry)
            && Solvent(series) && NoneWorse(series, |series|, drawdown)
            && -1.0 < drawdown <= 0.0 && drawdown <= Equity(series, |series|) - 1.0
  {
    CompoundedIsTotalReturn(closes, series, DrawdownTo(series, |series|));
    var top, from, to := DrawdownIsWorst(series, |series|);
    assert closes[0] in closes && closes[|closes| - 1] in closes;
    EntryDecides(closes[0], entry, closes[|closes| - 1]);
  }

  lemma FlatHasNoDrawdown()
    ensures DrawdownTo([0.0], 1) == 0.0
  {
    var flat := [0.0];
    assert Equity(flat, 0) == 1.0 && Equity(flat, 1) == 1.0;
    assert DrawdownTo(flat, 0) == 0.0 && HighestTo(flat, 0) == 1.0 && HighestTo(flat, 1) == 1.0;
  }
}
