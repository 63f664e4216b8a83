/**
 Agreement statistics of the shadow evaluation (scripts/shadow_eval.py): Cohen's
 kappa over pairs of verdicts. Floats are read as exact reals.
 */
module AgreementStatistics {
  import opened Arithmetic
  import opened Basics
  import opened Outcomes

  /** One row's verdicts: rater A (API) and rater B (local). */
  datatype Pair = Pair(a: string, b: string)

  function CountA(pairs: seq<Pair>, lbl: string): nat {
    if pairs == [] then 0 else (if pairs[0].a == lbl then 1 else 0) + CountA(pairs[1..], lbl)
  }

  function CountB(pairs: seq<Pair>, lbl: string): nat {
    if pairs == [] then 0 else (if pairs[0].b == lbl then 1 else 0) + CountB(pairs[1..], lbl)
  }

  function Agreements(pairs: seq<Pair>): nat {
    if pairs == [] then 0 else (if pairs[0].a == pairs[0].b then 1 else 0) + Agreements(pairs[1..])
  }

  /**
   The number of index pairs (i, j) with pairs[i].a == rest[j].b and that common
   label in `labels`: chance agreement, before dividing by n * n.
   */
  function ChanceHits(pairs: seq<Pair>, rest: seq<Pair>, labels: set<string>): nat {
    if rest == [] then 0
    else (if rest[0].b in labels then CountA(pairs, rest[0].b) else 0) + ChanceHits(pairs, rest[1..], labels)
  }

  function LabelsOf(pairs: seq<Pair>): set<string> {
    (set p | p in pairs :: p.a) + (set p | p in pairs :: p.b)
  }

  function Observed(pairs: seq<Pair>): real
    requires pairs != []
  {
    Agreements(pairs) as real / |pairs| as real
  }

  /** The share of chance agreement that falls on a set of labels. */
  function ChanceOn(pairs: seq<Pair>, labels: set<string>): real
    requires pairs != []
  {
    Share(ChanceHits(pairs, pairs, labels), |pairs|)
  }

  /** A count of index pairs as a fraction of all n * n of them. */
  function Share(hits: nat, n: nat): real
    requires n > 0
  {
    hits as real / (n * n) as real
  }

  function Chance(pairs: seq<Pair>): real
    requires pairs != []
  {
    ChanceOn(pairs, LabelsOf(pairs))
  }

  function Kappa(pairs: seq<Pair>): real
    requires pairs != []
  {
    var po, pe := Observed(pairs), Chance(pairs);
    if pe >= 1.0 then (if po == 1.0 then 1.0 else 0.0)
    else (po - pe) / (1.0 - pe)
  }

  ghost predicate AllAgree(pairs: seq<Pair>) {
    forall p | p in pairs :: p.a == p.b
  }

  /** Both raters give every item the same label. */
  ghost predicate ConstantOn(pairs: seq<Pair>, lbl: string) {
    forall p | p in pairs :: p.a == lbl && p.b == lbl
  }

  // ----- the loop of the source computes Kappa, whatever order it visits labels in -----

  method CohenKappa(pairs: seq<Pair>) returns (r: Result<real>)
    ensures pairs == [] ==> r.Raised?
    ensures pairs != [] ==> r == Ok(Kappa(pairs))
    ensures r.Ok? ==> -1.0 <= r.value <= 1.0 && (r.value == 1.0 <==> AllAgree(pairs))
    ensures r.Ok? ==> Weighs(r.value, |pairs| as real, |AgreeAt(pairs)| as real, |MeetAt(pairs, pairs)| as real)
  {
    if pairs == [] {
      return Raised("cohen_kappa() of empty sequence");
    }
    var n := |pairs| as real;
    var po := Agreements(pairs) as real / n;
    var labels := LabelsOf(pairs);
    var todo := labels;
    var pe := 0.0;
    ghost var hits: nat := 0;
    assert labels - todo == {};
    NoLabelsNoHits(pairs, pairs);
    while todo != {}
      invariant todo <= labels
      invariant hits == ChanceHits(pairs, pairs, labels - todo) && Scaled(pe, hits, n)
      decreases todo
    {
      var lbl :| lbl in todo;
      var inA, inB := CountA(pairs, lbl), CountB(pairs, lbl);
      var pa := inA as real / n;
      var pb := inB as real / n;
      OneMoreLabel(pairs, pairs, labels - todo, lbl);
      assert labels - (todo - {lbl}) == (labels - todo) + {lbl};
      ghost var more: nat := ChanceHits(pairs, pairs, labels - (todo - {lbl}));
      ScaledStep(pe, pa, pb, inA, inB, hits, more, n);
      pe := pe + pa * pb;
      hits := more;
      todo := todo - {lbl};
    }
    assert labels - todo == labels;
    ScaledIsShare(pe, hits, |pairs|);
    KappaRange(pairs);
    KappaWeighs(pairs);
    if pe >= 1.0 {
      return Ok(if po == 1.0 then 1.0 else 0.0);
    }
    return Ok((po - pe) / (1.0 - pe));
  }

  lemma ScaledIsShare(pe: real, hits: nat, n: nat)
    requires n > 0 && Scaled(pe, hits, n as real)
    ensures pe == Share(hits, n)
  {
  }

  /** The accumulator, scaled by n * n, is a number of hits. */
  ghost predicate Scaled(pe: real, hits: int, n: real) {
    pe * (n * n) == hits as real
  }

  lemma ScaledStep(pe: real, pa: real, pb: real, x: int, y: int, hits: int, more: int, n: real)
    requires n > 0.0 && pa == x as real / n && pb == y as real / n
    requires Scaled(pe, hits, n) && more == hits + x * y
    ensures Scaled(pe + pa * pb, more, n)
  {
  }

  lemma NoLabelsNoHits(pairs: seq<Pair>, rest: seq<Pair>)
    ensures ChanceHits(pairs, rest, {}) == 0
  {
  }

  /** Adding a label adds the product of its two marginal counts. */
  lemma {:induction false} OneMoreLabel(pairs: seq<Pair>, rest: seq<Pair>, labels: set<string>, lbl: string)
    requires lbl !in labels
    ensures ChanceHits(pairs, rest, labels + {lbl})
         == ChanceHits(pairs, rest, labels) + CountA(pairs, lbl) * CountB(rest, lbl)
  {
    if rest != [] {
      OneMoreLabel(pairs, rest[1..], labels, lbl);
    }
  }

  // ----- what the counts count -----

  /** The places where the raters agree. */
  ghost function AgreeAt(pairs: seq<Pair>): set<nat> {
    set i: nat | i < |pairs| && pairs[i].a == pairs[i].b
  }

  /** The pairs of places whose labels, of rater A and of rater B, agree: what chance would compare. */
  ghost function MeetAt(pairs: seq<Pair>, rest: seq<Pair>): set<(nat, nat)> {
    set i: nat, j: nat | i < |pairs| && j < |rest| && pairs[i].a == rest[j].b :: (i, j)
  }

  ghost function UsedByA(pairs: seq<Pair>, lbl: string): set<nat> {
    set i: nat | i < |pairs| && pairs[i].a == lbl
  }

  /** The places of a sequence are the first one and those of the rest, one further on. */
  lemma SizeOfShifted(here: set<nat>, rest: set<nat>, first: bool)
    requires forall i: nat :: i in here <==> (i == 0 && first) || (i > 0 && i - 1 in rest)
    ensures |here| == |rest| + if first then 1 else 0
  {
    var later := set i | i in rest :: i + 1;
    SizeOfImage(rest, later, (i: nat) => i + 1);
    assert here == if first then later + {0} else later;
  }

  lemma {:induction false} AgreementsMean(pairs: seq<Pair>)
    ensures Agreements(pairs) == |AgreeAt(pairs)|
  {
    if pairs != [] {
      AgreementsMean(pairs[1..]);
      SizeOfShifted(AgreeAt(pairs), AgreeAt(pairs[1..]), pairs[0].a == pairs[0].b);
    }
  }

  lemma {:induction false} CountAMeans(pairs: seq<Pair>, lbl: string)
    ensures CountA(pairs, lbl) == |UsedByA(pairs, lbl)|
  {
    if pairs != [] {
      CountAMeans(pairs[1..], lbl);
      SizeOfShifted(UsedByA(pairs, lbl), UsedByA(pairs[1..], lbl), pairs[0].a == lbl);
    }
  }

  function Below(q: (nat, nat)): (nat, nat) {
    (q.0, q.1 + 1)
  }

  lemma SizeOfFirst(column: set<nat>, k: nat) returns (first: set<(nat, nat)>)
    ensures |first| == |column|
    ensures (forall q | q in first :: q.1 == k && q.0 in column) && forall i | i in column :: (i, k) in first
  {
    first := set i: nat | i in column :: (i, k);
    SizeOfImage(column, first, (i: nat) => (i, k));
  }

  /** Column k, and the columns of `others`, each one further on. */
  lemma SizeByColumn(here: set<(nat, nat)>, k: nat, column: set<nat>, others: set<(nat, nat)>)
    requires forall q | q in here :: (q.1 == k && q.0 in column) || exists r | r in others :: q == Below(r)
    requires (forall i | i in column :: (i, k) in here) && forall r | r in others :: r.1 >= k && Below(r) in here
    ensures |here| == |column| + |others|
  {
    var first := SizeOfFirst(column, k);
    var later := set r | r in others :: Below(r);
    SizeOfImage(others, later, Below);
    forall q | q in here
      ensures q in first || q in later
    {
      assert q == (q.0, q.1);
    }
    forall q | q in first
      ensures q in here
    {
      assert q == (q.0, k);
    }
    assert here == first + later;
    assert first !! later;
  }

  lemma MeetOneMore(pairs: seq<Pair>, rest: seq<Pair>)
    requires rest != []
    ensures |MeetAt(pairs, rest)| == |UsedByA(pairs, rest[0].b)| + |MeetAt(pairs, rest[1..])|
  {
    var here, others := MeetAt(pairs, rest), MeetAt(pairs, rest[1..]);
    forall q | q in here
      ensures (q.1 == 0 && q.0 in UsedByA(pairs, rest[0].b)) || exists r | r in others :: q == Below(r)
    {
      if q.1 > 0 {
        var r := (q.0, q.1 - 1);
        assert r in others && q == Below(r);
      }
    }
    SizeByColumn(here, 0, UsedByA(pairs, rest[0].b), others);
  }

  lemma {:induction false} HitsMean(pairs: seq<Pair>, rest: seq<Pair>, labels: set<string>)
    requires forall q | q in rest :: q.b in labels
    ensures ChanceHits(pairs, rest, labels) == |MeetAt(pairs, rest)|
  {
    if rest != [] {
      HitsMean(pairs, rest[1..], labels);
      CountAMeans(pairs, rest[0].b);
      MeetOneMore(pairs, rest);
    } else {
      assert MeetAt(pairs, rest) == {};
    }
  }

  /** Kappa, free of divisions: `agree` of n pairs agree, and `meet` of the n * n comparisons chance makes. */
  ghost predicate Weighs(kappa: real, n: real, agree: real, meet: real) {
    if meet == n * n then kappa == 1.0
    else
      && kappa * (n * n - meet) == n * agree - meet
      && (kappa == 0.0 <==> n * agree == meet)
      && (kappa < 0.0 <==> n * agree < meet)
  }

  lemma WeighsIs(kappa: real, n: real, nn: real, agree: real, meet: real, po: real, pe: real)
    requires nn == n * n && nn > 0.0 && po * n == agree && pe * nn == meet && pe < 1.0 && kappa * (1.0 - pe) == po - pe
    ensures Weighs(kappa, n, agree, meet)
  {
    var rest := 1.0 - pe;
    PositiveProduct(rest, nn);
    assert rest * nn == nn - meet;
    assert po * nn == n * agree;
    assert (kappa * rest) * nn == n * agree - meet;
    assert kappa * (nn - meet) == n * agree - meet;
    SignOfProduct(kappa, nn - meet);
  }

  lemma PositiveProduct(x: real, d: real)
    requires x > 0.0 && d > 0.0
    ensures x * d > 0.0
  {
  }

  lemma SignOfProduct(x: real, d: real)
    requires d > 0.0
    ensures (x * d == 0.0 <==> x == 0.0) && (x * d < 0.0 <==> x < 0.0)
  {
  }

  lemma KappaWeighs(pairs: seq<Pair>)
    requires pairs != []
    ensures Weighs(Kappa(pairs), |pairs| as real, |AgreeAt(pairs)| as real, |MeetAt(pairs, pairs)| as real)
  {
    var n, hits := |pairs|, ChanceHits(pairs, pairs, LabelsOf(pairs));
    AgreementsMean(pairs);
    HitsMean(pairs, pairs, LabelsOf(pairs));
    ChanceAtMostOne(pairs);
    if Chance(pairs) >= 1.0 {
      DefensiveBranchUnreachable(pairs);
    }
    KappaWeighsAs(Kappa(pairs), Agreements(pairs), hits, n, Observed(pairs), Chance(pairs));
  }

  /** Kappa from the two counts: the degenerate branch, or the quotient. */
  lemma KappaWeighsAs(kappa: real, agree: nat, hits: nat, n: nat, po: real, pe: real)
    requires n > 0 && po == agree as real / n as real && pe == Share(hits, n) && pe <= 1.0
    requires if pe >= 1.0 then kappa == 1.0 else kappa == (po - pe) / (1.0 - pe)
    ensures Weighs(kappa, n as real, agree as real, hits as real)
  {
    CastTotals(n, 0);
    DivMul(agree as real, n as real);
    DivMul(hits as real, (n * n) as real);
    assert n * n > 0;
    if pe < 1.0 {
      DivMul(po - pe, 1.0 - pe);
      WeighsIs(kappa, n as real, (n * n) as real, agree as real, hits as real, po, pe);
    }
  }

  // ----- bounds on chance agreement -----

  lemma {:induction false} CountAtMost(pairs: seq<Pair>, lbl: string)
    ensures CountA(pairs, lbl) <= |pairs| && CountB(pairs, lbl) <= |pairs| && Agreements(pairs) <= |pairs|
  {
    if pairs != [] {
      CountAtMost(pairs[1..], lbl);
    }
  }

  lemma {:induction false} CountFull(pairs: seq<Pair>, lbl: string)
    requires CountA(pairs, lbl) == |pairs|
    ensures forall p | p in pairs :: p.a == lbl
  {
    if pairs != [] {
      CountAtMost(pairs[1..], lbl);
      CountFull(pairs[1..], lbl);
    }
  }

  lemma {:induction false} HitsAtMost(pairs: seq<Pair>, rest: seq<Pair>, labels: set<string>)
    ensures ChanceHits(pairs, rest, labels) <= |pairs| * |rest|
    ensures ChanceHits(pairs, rest, labels) == |pairs| * |rest| ==>
              pairs == [] || forall q | q in rest :: CountA(pairs, q.b) == |pairs|
  {
    if rest != [] {
      HitsAtMost(pairs, rest[1..], labels);
      CountAtMost(pairs, rest[0].b);
      OneMoreColumn(|pairs|, |rest|);
    }
  }

  lemma OneMoreColumn(n: nat, m: nat)
    requires m > 0
    ensures n * m == n + n * (m - 1)
  {
  }

  /** Chance agreement never exceeds 1, and reaches it only when both raters are constant on one label. */
  lemma ChanceAtMostOne(pairs: seq<Pair>)
    requires pairs != []
    ensures 0.0 <= Chance(pairs) <= 1.0
    ensures Chance(pairs) >= 1.0 <==> ConstantOn(pairs, pairs[0].a)
  {
    var n, hits := |pairs|, ChanceHits(pairs, pairs, LabelsOf(pairs));
    var lbl := pairs[0].a;
    HitsAtMost(pairs, pairs, LabelsOf(pairs));
    Fraction(hits, n * n);
    if hits == n * n {
      forall p | p in pairs
        ensures p.a == lbl && p.b == lbl
      {
        CountFull(pairs, p.b);
        assert pairs[0] in pairs;
      }
    }
    if ConstantOn(pairs, lbl) {
      ConstantCounts(pairs, lbl);
      assert pairs[0] in pairs;
      ConstantHits(pairs, pairs, LabelsOf(pairs), lbl);
    }
  }

  lemma Fraction(x: nat, d: nat)
    requires d > 0 && x <= d
    ensures 0.0 <= x as real / d as real <= 1.0
    ensures x as real / d as real >= 1.0 <==> x == d
  {
    var rx, rd := x as real, d as real;
    DivMul(rx, rd);
    DivLe(0.0, rx, rd);
    DivLe(rx, rd, rd);
    if rx / rd >= 1.0 {
      MulLe(1.0, rx / rd, rd);
    }
  }

  lemma {:induction false} ConstantCounts(pairs: seq<Pair>, lbl: string)
    requires forall p | p in pairs :: p.a == lbl
    ensures CountA(pairs, lbl) == |pairs|
  {
    if pairs != [] {
      ConstantCounts(pairs[1..], lbl);
    }
  }

  lemma {:induction false} ConstantHits(pairs: seq<Pair>, rest: seq<Pair>, labels: set<string>, lbl: string)
    requires lbl in labels && CountA(pairs, lbl) == |pairs|
    requires forall q | q in rest :: q.b == lbl
    ensures ChanceHits(pairs, rest, labels) == |pairs| * |rest|
  {
    if rest != [] {
      ConstantHits(pairs, rest[1..], labels, lbl);
      OneMoreColumn(|pairs|, |rest|);
    }
  }

  lemma {:induction false} AgreeCount(pairs: seq<Pair>)
    ensures Agreements(pairs) <= |pairs|
    ensures Agreements(pairs) == |pairs| <==> AllAgree(pairs)
  {
    if pairs != [] {
      AgreeCount(pairs[1..]);
      assert pairs == [pairs[0]] + pairs[1..];
    }
  }

  // ----- the lower bound: 2 pe <= 1 + po -----

  /** Agreements on the labels of a set. */
  function AgreementsOn(pairs: seq<Pair>, labels: set<string>): nat {
    if pairs == [] then 0
    else var (a, b) := (pairs[0].a, pairs[0].b);
      (if a == b && a in labels then 1 else 0) + AgreementsOn(pairs[1..], labels)
  }

  /** How many of the 2n ratings use a label of a set. */
  function RatingsOn(pairs: seq<Pair>, labels: set<string>): nat {
    if pairs == [] then 0
    else var (a, b) := (pairs[0].a, pairs[0].b);
      (if a in labels then 1 else 0) + (if b in labels then 1 else 0) + RatingsOn(pairs[1..], labels)
  }

  lemma {:induction false} SplitOffLabel(pairs: seq<Pair>, labels: set<string>, lbl: string)
    requires lbl !in labels
    ensures AgreementsOn(pairs, labels + {lbl}) == AgreementsOn(pairs, labels) + AgreementsOn(pairs, {lbl})
    ensures RatingsOn(pairs, labels + {lbl}) == RatingsOn(pairs, labels) + CountA(pairs, lbl) + CountB(pairs, lbl)
  {
    if pairs != [] {
      SplitOffLabel(pairs[1..], labels, lbl);
    }
  }

  /** Inclusion-exclusion: the raters cannot both use a label more often than n plus their overlap on it. */
  lemma {:induction false} OverlapBound(pairs: seq<Pair>, lbl: string)
    ensures CountA(pairs, lbl) + CountB(pairs, lbl) <= |pairs| + AgreementsOn(pairs, {lbl})
  {
    if pairs != [] {
      OverlapBound(pairs[1..], lbl);
    }
  }

  lemma {:induction false} AllLabelsTotals(pairs: seq<Pair>, labels: set<string>)
    ensures AgreementsOn(pairs, labels) <= Agreements(pairs)
    ensures RatingsOn(pairs, labels) <= 2 * |pairs|
    ensures AgreementsOn(pairs, {}) == 0 && RatingsOn(pairs, {}) == 0
  {
    if pairs != [] {
      AllLabelsTotals(pairs[1..], labels);
    }
  }

  /** 4xy <= (x+y)^2 <= (x+y)(n+p) <= (x+y)n + 2np. */
  lemma OneLabelBound(x: nat, y: nat, p: nat, n: nat)
    requires x + y <= n + p && x <= n && y <= n
    ensures 4 * (x * y) <= n * (x + y) + 2 * n * p
  {
    Squares(x, y);
    Factored(x + y, p, n);
  }

  lemma Squares(x: nat, y: nat)
    ensures 4 * (x * y) <= (x + y) * (x + y)
  {
    assert (x - y) * (x - y) >= 0;
    assert (x + y) * (x + y) == (x - y) * (x - y) + 4 * (x * y);
  }

  lemma Factored(s: nat, p: nat, n: nat)
    requires s <= n + p && s <= 2 * n
    ensures s * s <= n * s + 2 * n * p
  {
    assert s * (n + p - s) >= 0;
    assert (2 * n - s) * p >= 0;
    assert s * (n + p - s) == s * n + s * p - s * s;
    assert (2 * n - s) * p == 2 * n * p - s * p;
  }

  lemma {:induction false} ChanceBoundOn(pairs: seq<Pair>, labels: set<string>)
    ensures 4 * ChanceHits(pairs, pairs, labels)
         <= |pairs| * RatingsOn(pairs, labels) + 2 * |pairs| * AgreementsOn(pairs, labels)
    decreases labels
  {
    var n := |pairs|;
    if labels == {} {
      NoLabelsNoHits(pairs, pairs);
    } else {
      var lbl :| lbl in labels;
      var fewer := labels - {lbl};
      assert fewer + {lbl} == labels;
      ChanceBoundOn(pairs, fewer);
      OneMoreLabel(pairs, pairs, fewer, lbl);
      SplitOffLabel(pairs, fewer, lbl);
      OverlapBound(pairs, lbl);
      CountAtMost(pairs, lbl);
      var x, y, p := CountA(pairs, lbl), CountB(pairs, lbl), AgreementsOn(pairs, {lbl});
      BoundStep(n, x, y, p, ChanceHits(pairs, pairs, fewer), RatingsOn(pairs, fewer), AgreementsOn(pairs, fewer),
                ChanceHits(pairs, pairs, labels), RatingsOn(pairs, labels), AgreementsOn(pairs, labels));
    }
  }

  lemma BoundStep(n: nat, x: nat, y: nat, p: nat, h: int, r: int, a: int, h': int, r': int, a': int)
    requires x + y <= n + p && x <= n && y <= n
    requires h' == h + x * y && r' == r + x + y && a' == a + p
    requires 4 * h <= n * r + 2 * n * a
    ensures 4 * h' <= n * r' + 2 * n * a'
  {
    OneLabelBound(x, y, p, n);
    assert n * r' == n * r + n * (x + y);
    assert 2 * n * a' == 2 * n * a + 2 * n * p;
  }

  lemma TwiceChanceBound(pairs: seq<Pair>)
    requires pairs != []
    ensures 2.0 * Chance(pairs) <= 1.0 + Observed(pairs)
  {
    var labels := LabelsOf(pairs);
    ChanceBoundOn(pairs, labels);
    AllLabelsTotals(pairs, labels);
    Totals(|pairs|, ChanceHits(pairs, pairs, labels), RatingsOn(pairs, labels),
           AgreementsOn(pairs, labels), Agreements(pairs));
  }

  lemma Totals(n: nat, hits: nat, ratings: nat, agreeOn: nat, agree: nat)
    requires n > 0 && 4 * hits <= n * ratings + 2 * n * agreeOn
    requires ratings <= 2 * n && agreeOn <= agree
    ensures 2.0 * (hits as real / (n * n) as real) <= 1.0 + agree as real / n as real
  {
    TotalsInt(n, hits, ratings, agreeOn, agree);
    CastTotals(n, agree);
    assert n as real * n as real > 0.0;
    ShareBound(hits as real, agree as real, n as real, n as real * n as real, n as real * agree as real);
  }

  lemma ShareBound(hits: real, agree: real, n: real, nn: real, na: real)
    requires n > 0.0 && nn > 0.0 && nn == n * n && na == n * agree && 2.0 * hits <= nn + na
    ensures 2.0 * (hits / nn) <= 1.0 + agree / n
  {
    var q, h := agree / n, hits / nn;
    DivMul(agree, n);
    DivMul(hits, nn);
    assert (q * n) * n == na;
    assert q * (n * n) == (q * n) * n;
    assert (2.0 * h) * nn == 2.0 * hits;
    assert (1.0 + q) * nn == nn + q * nn;
    CancelLe(2.0 * h, 1.0 + q, nn);
  }

  lemma TotalsInt(n: nat, hits: nat, ratings: nat, agreeOn: nat, agree: nat)
    requires 4 * hits <= n * ratings + 2 * n * agreeOn
    requires ratings <= 2 * n && agreeOn <= agree
    ensures 2 * hits <= n * n + n * agree
  {
  }

  lemma CastTotals(n: nat, agree: nat)
    ensures (n * n) as real == n as real * n as real
    ensures (n * n + n * agree) as real == n as real * n as real + n as real * agree as real
  {
  }

  // ----- main results -----

  /** Kappa lies in [-1, 1], and is 1 exactly when the raters agree on every pair. */
  lemma KappaRange(pairs: seq<Pair>)
    requires pairs != []
    ensures -1.0 <= Kappa(pairs) <= 1.0
    ensures Kappa(pairs) == 1.0 <==> AllAgree(pairs)
  {
    AgreeCount(pairs);
    Fraction(Agreements(pairs), |pairs|);
    ChanceAtMostOne(pairs);
    TwiceChanceBound(pairs);
    if Chance(pairs) >= 1.0 {
      DefensiveBranchUnreachable(pairs);
    } else {
      QuotientRange(Observed(pairs), Chance(pairs));
    }
  }

  lemma QuotientRange(po: real, pe: real)
    requires 0.0 <= po <= 1.0 && 0.0 <= pe < 1.0 && 2.0 * pe <= 1.0 + po
    ensures -1.0 <= (po - pe) / (1.0 - pe) <= 1.0
    ensures (po - pe) / (1.0 - pe) == 1.0 <==> po == 1.0
  {
    var d := 1.0 - pe;
    DivMul(po - pe, d);
    DivIs(d, d, 1.0);
    DivIs(-d, d, -1.0);
    DivLe(po - pe, d, d);
    DivLe(-d, po - pe, d);
  }

  /** The documented claim: the 0.0 result of the degenerate branch cannot arise. */
  lemma DefensiveBranchUnreachable(pairs: seq<Pair>)
    requires pairs != [] && Chance(pairs) >= 1.0
    ensures Observed(pairs) == 1.0 && AllAgree(pairs) && Kappa(pairs) == 1.0
  {
    ChanceAtMostOne(pairs);
    AgreeCount(pairs);
    Fraction(Agreements(pairs), |pairs|);
  }
}
