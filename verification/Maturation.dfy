/**
 Forward tests over their life: the harness opens rows and matures them
 (tradingagents/backtest/harness.py), the sweep matures what is due
 (tradingagents/backtest/sweep.py), each closed row leaving one outcome-log row.
 */
module Maturation {
  import opened Arithmetic
  import opened Basics
  import opened Outcomes
  import opened ForwardTest
  import opened Text

  /**
   What a call is told from outside: the price chain's closes of a ticker over a window of
   days, or its failure; and whether the update of row i, and its outcome-log insert, work.
   */
  datatype Outside = Outside(prices: (string, int, int) -> Result<seq<real>>, written: nat -> bool, logged: nat -> bool)

  const BENCHMARK := "SPY"

  /** What a forward test is opened with. */
  datatype Terms = Terms(run: nat, decision: string, position: int, entryDate: int, entryPrice: real,
                         benchmarkEntry: Option<real>, scheduled: int)

  /** What it closes with. */
  datatype Results = Results(closeDate: int, exitPrice: real, benchmarkExit: Option<real>, benchmarkReturn: real,
                             total: real, alpha: real, series: seq<real>, sharpe: Sharpe, drawdown: real, winRate: real,
                             days: int)

  /** `Unpriced` is a row that errored when it was opened, for want of an entry price. */
  datatype Metrics =
    | Unpriced(graphRun: nat)
    | Open(terms: Terms)
    | Closed(terms: Terms, results: Results)
    | Errored(terms: Terms)
  {
    function Run(): nat {
      if Unpriced? then graphRun else terms.run
    }
  }

  datatype Row = Row(backtest: nat, persona: string, ticker: string, metrics: Metrics)

  datatype Outcome = Outcome(run: nat, ticker: string, persona: string, decision: string, backtest: nat, closeDate: int,
                             total: real, alpha: real)

  /**
   Row i has id i, backtest b id b; `closed[b]` is the parent's status. `runs` are the ids of
   the runs table. `lost` records the outcome-log rows whose insert failed.
   */
  datatype Db = Db(rows: seq<Row>, closed: seq<bool>, log: seq<Outcome>, runs: set<nat>, lost: seq<Outcome>)

  const EMPTY := Db([], [], [], {}, [])

  // ----- maturing one row -----

  /** The benchmark's last close and its return; a failing or empty answer counts as no return. */
  function Benchmark(p: Outside, entryDate: int, end: int): (Option<real>, real) {
    match p.prices(BENCHMARK, entryDate, end)
    case Raised(_) => (None, 0.0)
    case Ok(closes) =>
      if closes == [] then (None, 0.0)
      else
        var exit := closes[|closes| - 1];
        (Some(exit), if closes[0] > 0.0 then (exit - closes[0]) / closes[0] else 0.0)
  }

  ghost function Series(closes: seq<real>, position: int): seq<real>
    requires Divisible(closes)
  {
    if |closes| < 2 then [] else seq(|closes| - 1, i requires 0 <= i < |closes| - 1 => Return(closes, position, i))
  }

  /** What happens to an open row matured up to `end`. */
  datatype Fate = Errs | Closes(metrics: Metrics) | Raises

  /** The results at `end`, with the drawdown as given. */
  function ResultsOf(p: Outside, terms: Terms, closes: seq<real>, series: seq<real>, drawdown: real, end: int): Results
    requires closes != [] && terms.entryPrice > 0.0
  {
    var exit := closes[|closes| - 1];
    var total := TotalReturn(terms.entryPrice, exit, terms.position).value;
    var (benchmarkExit, benchmarkReturn) := Benchmark(p, terms.entryDate, end);
    Results(end, exit, benchmarkExit, benchmarkReturn, total, total - benchmarkReturn,
            series, SharpeTerms(series), drawdown, WinRate(series), end - terms.entryDate)
  }

  ghost function FateOf(p: Outside, row: Row, end: int): Fate
    requires row.metrics.Open?
  {
    var terms := row.metrics.terms;
    match p.prices(row.ticker, terms.entryDate, end)
    case Raised(_) => Errs
    case Ok(closes) =>
      if closes == [] then Errs
      else if !Divisible(closes) || terms.entryPrice <= 0.0 then Raises
      else
        var series := Series(closes, terms.position);
        Closes(Closed(terms, ResultsOf(p, terms, closes, series, DrawdownTo(series, |series|), end)))
  }

  /** The benchmark's last close, and its return on its first close if that is positive. */
  ghost predicate BenchmarkRead(exit: Option<real>, gain: real, told: Result<seq<real>>) {
    if told.Raised? || told.value == [] then exit == None && gain == 0.0
    else
      var first, last := told.value[0], told.value[|told.value| - 1];
      exit == Some(last) && if first > 0.0 then Earns(gain, first, last, 1) else gain == 0.0
  }

  /** One return a bar, each the price change in the position's direction on the close before it. */
  ghost predicate SeriesRead(series: seq<real>, closes: seq<real>, position: int) {
    && |series| == |closes| - 1
    && forall i | 0 <= i < |series| :: Earns(series[i], closes[i], closes[i + 1], position)
  }

  ghost predicate WorstDecline(series: seq<real>, worst: real) {
    worst <= 0.0 && (Solvent(series) ==> NoneWorse(series, |series|, worst) && Attained(series, worst))
  }

  ghost predicate ShareOfWins(series: seq<real>, rate: real) {
    if series == [] then rate == 0.0 else rate * |series| as real == |Winning(series, |series|)| as real
  }

  ghost predicate SharpeRead(series: seq<real>, sharpe: Sharpe) {
    && (sharpe == Degenerate <==> forall x, y | x in series && y in series :: x == y)
    && (sharpe.Ratio? ==> |series| >= 2 && sharpe.mean * |series| as real == Sum(series, |series|)
                          && sharpe.variance * (|series| - 1) as real == Spread(series, sharpe.mean, |series|))
  }

  lemma SharpeIsRead(series: seq<real>)
    ensures SharpeRead(series, SharpeTerms(series))
  {
  }

  lemma WinsAreShared(series: seq<real>)
    ensures ShareOfWins(series, WinRate(series))
  {
  }

  /**
   What a row closes with, read off the closes of its window and the benchmark's: exit price
   and holding days, the return in the position's direction on the entry price, and what of
   it the benchmark's return leaves as alpha.
   */
  ghost predicate ReadsOff(r: Results, terms: Terms, closes: seq<real>, benchmark: Result<seq<real>>, end: int)
    requires closes != []
  {
    && r.closeDate == end && r.days == end - terms.entryDate && r.exitPrice == closes[|closes| - 1]
    && Earns(r.total, terms.entryPrice, closes[|closes| - 1], terms.position)
    && r.alpha + r.benchmarkReturn == r.total
    && BenchmarkRead(r.benchmarkExit, r.benchmarkReturn, benchmark)
    && SeriesRead(r.series, closes, terms.position)
    && WorstDecline(r.series, r.drawdown) && ShareOfWins(r.series, r.winRate) && SharpeRead(r.series, r.sharpe)
  }

  lemma StepOf(position: int, now: real, next: real)
    requires now != 0.0
    ensures Earns(position as real * ((next - now) / now), now, next, position)
  {
    DivMul(next - now, now);
  }

  lemma SeriesMeans(closes: seq<real>, position: int)
    requires closes != [] && Divisible(closes)
    ensures SeriesRead(Series(closes, position), closes, position)
  {
    forall i | 0 <= i < |closes| - 1
      ensures Earns(Series(closes, position)[i], closes[i], closes[i + 1], position)
    {
      StepOf(position, closes[i], closes[i + 1]);
    }
  }

  lemma BenchmarkMeans(p: Outside, entryDate: int, end: int)
    ensures BenchmarkRead(Benchmark(p, entryDate, end).0, Benchmark(p, entryDate, end).1, p.prices("SPY", entryDate, end))
  {
    var told := p.prices("SPY", entryDate, end);
    if told.Ok? && told.value != [] && told.value[0] > 0.0 {
      DivMul(told.value[|told.value| - 1] - told.value[0], told.value[0]);
    }
  }

  lemma DrawdownMeans(series: seq<real>)
    ensures WorstDecline(series, DrawdownTo(series, |series|))
  {
    if Solvent(series) {
      var top, from, to := DrawdownIsWorst(series, |series|);
    }
  }

  lemma ResultsMean(p: Outside, terms: Terms, closes: seq<real>, end: int)
    requires closes != [] && terms.entryPrice > 0.0 && Divisible(closes)
    ensures var series := Series(closes, terms.position);
            ReadsOff(ResultsOf(p, terms, closes, series, DrawdownTo(series, |series|), end),
                     terms, closes, p.prices("SPY", terms.entryDate, end), end)
  {
    var series := Series(closes, terms.position);
    SeriesMeans(closes, terms.position);
    BenchmarkMeans(p, terms.entryDate, end);
    DrawdownMeans(series);
    WinsAreShared(series);
    SharpeIsRead(series);
  }

  /** A long row on the benchmark itself, entered at its first close, has no alpha. */
  lemma BenchmarkHasNoAlpha(p: Outside, row: Row, end: int, closes: seq<real>)
    requires row.metrics.Open? && row.ticker == "SPY" && row.metrics.terms.position == 1
    requires p.prices("SPY", row.metrics.terms.entryDate, end) == Ok(closes) && closes != [] && Divisible(closes)
    requires row.metrics.terms.entryPrice == closes[0] > 0.0
    ensures var fate := FateOf(p, row, end);
            fate.Closes? && fate.metrics.Closed? && fate.metrics.results.alpha == 0.0
  {
  }

  function OutcomeOf(row: Row): Outcome
    requires row.metrics.Closed?
  {
    var Closed(terms, results) := row.metrics;
    Outcome(terms.run, row.ticker, row.persona, terms.decision, row.backtest, results.closeDate, results.total, results.alpha)
  }

  function Write(db: Db, i: nat, m: Metrics): Db
    requires i < |db.rows|
  {
    db.(rows := db.rows[i := db.rows[i].(metrics := m)])
  }

  /** The insert fails on a run that is not in the runs table, or when it cannot be made. */
  predicate Logs(p: Outside, db: Db, i: nat)
    requires i < |db.rows|
  {
    p.logged(i) && db.rows[i].metrics.Run() in db.runs
  }

  /** The outcome-log row comes after the row was closed and committed. */
  function Log(p: Outside, db: Db, i: nat): Db
    requires i < |db.rows| && db.rows[i].metrics.Closed?
  {
    if Logs(p, db, i) then db.(log := db.log + [OutcomeOf(db.rows[i])]) else db.(lost := db.lost + [OutcomeOf(db.rows[i])])
  }

  ghost predicate IsOpen(db: Db, b: nat, i: nat) {
    i < |db.rows| && db.rows[i].backtest == b && db.rows[i].metrics.Open?
  }

  /** Nothing comes of maturing the row: its arithmetic raises, or its update fails. */
  ghost predicate Blocked(p: Outside, db: Db, i: nat, end: int)
    requires i < |db.rows| && db.rows[i].metrics.Open?
  {
    FateOf(p, db.rows[i], end).Raises? || !p.written(i)
  }

  ghost function Matured(p: Outside, db: Db, i: nat, end: int): Db
    requires i < |db.rows| && db.rows[i].metrics.Open?
  {
    if Blocked(p, db, i, end) then db
    else
      match FateOf(p, db.rows[i], end)
      case Errs => Write(db, i, Errored(db.rows[i].metrics.terms))
      case Closes(m) => Log(p, Write(db, i, m), i)
  }

  ghost predicate MatureRaises(p: Outside, db: Db, i: nat, end: int)
    requires i < |db.rows| && db.rows[i].metrics.Open?
  {
    Blocked(p, db, i, end) || (FateOf(p, db.rows[i], end).Closes? && !Logs(p, db, i))
  }

  /** The row closes on what its closes say. */
  ghost predicate Ends(p: Outside, row: Row, m: Metrics, end: int)
    requires row.metrics.Open?
  {
    var terms := row.metrics.terms;
    var bars := p.prices(row.ticker, terms.entryDate, end);
    && bars.Ok? && bars.value != [] && terms.entryPrice > 0.0 && (forall k | 0 <= k < |bars.value| - 1 :: bars.value[k] != 0.0)
    && m.Closed? && m.terms == terms && ReadsOff(m.results, terms, bars.value, p.prices("SPY", terms.entryDate, end), end)
  }

  /**
   One row matured, on the tables alone: without bars it errs; a zero divisor, an entry price
   that is not positive or a failing update raise and leave everything as it was; otherwise it
   closes on what its closes say, and its outcome-log row is in the log, or lost and the call raises.
   */
  ghost predicate Matures(p: Outside, db: Db, t: Db, i: nat, end: int, raised: bool)
    requires i < |db.rows| && db.rows[i].metrics.Open?
  {
    var row, terms := db.rows[i], db.rows[i].metrics.terms;
    var bars := p.prices(row.ticker, terms.entryDate, end);
    && |t.rows| == |db.rows| && t == db.(rows := t.rows, log := t.log, lost := t.lost)
    && (forall k | 0 <= k < |db.rows| && k != i :: t.rows[k] == db.rows[k]) && t.rows[i] == row.(metrics := t.rows[i].metrics)
    && (if !p.written(i) then raised && t == db
        else if bars.Raised? || bars.value == [] then
          !raised && t.rows[i].metrics == Errored(terms) && t.log == db.log && t.lost == db.lost
        else if terms.entryPrice <= 0.0 || exists k :: 0 <= k < |bars.value| - 1 && bars.value[k] == 0.0 then raised && t == db
        else
          && Ends(p, row, t.rows[i].metrics, end)
          && var r := t.rows[i].metrics.results;
             var outcome := Outcome(terms.run, row.ticker, row.persona, terms.decision, row.backtest, end, r.total, r.alpha);
             if p.logged(i) && terms.run in db.runs then !raised && t.log == db.log + [outcome] && t.lost == db.lost
             else raised && t.log == db.log && t.lost == db.lost + [outcome])
  }

  lemma MaturedMeans(p: Outside, db: Db, i: nat, end: int)
    requires i < |db.rows| && db.rows[i].metrics.Open?
    ensures Matures(p, db, Matured(p, db, i, end), i, end, MatureRaises(p, db, i, end))
  {
    var fate := FateOf(p, db.rows[i], end);
    if fate.Closes? && p.written(i) {
      FateMeans(p, db.rows[i], end);
      ClosingMeans(p, db, i, end, fate.metrics);
    }
  }

  lemma FateMeans(p: Outside, row: Row, end: int)
    requires row.metrics.Open? && FateOf(p, row, end).Closes?
    ensures Ends(p, row, FateOf(p, row, end).metrics, end)
  {
    ResultsMean(p, row.metrics.terms, p.prices(row.ticker, row.metrics.terms.entryDate, end).value, end);
  }

  lemma ClosingMeans(p: Outside, db: Db, i: nat, end: int, m: Metrics)
    requires i < |db.rows| && db.rows[i].metrics.Open? && p.written(i) && Ends(p, db.rows[i], m, end)
    ensures Matures(p, db, Log(p, Write(db, i, m), i), i, end, !Logs(p, db, i))
  {
  }

  // ----- maturing every open row of a backtest -----

  /** From row i on; stops at the first row that raises. */
  ghost function MaturedFrom(p: Outside, db: Db, b: nat, end: int, i: nat): (r: (Db, bool))
    ensures |r.0.rows| == |db.rows| && r.0.closed == db.closed
    decreases |db.rows| - i
  {
    if i >= |db.rows| then (db, false)
    else if !IsOpen(db, b, i) then MaturedFrom(p, db, b, end, i + 1)
    else if MatureRaises(p, db, i, end) then (Matured(p, db, i, end), true)
    else MaturedFrom(p, Matured(p, db, i, end), b, end, i + 1)
  }

  // ----- the sweep over one backtest -----

  predicate Due(row: Row, b: nat, today: int) {
    row.backtest == b && row.metrics.Open? && row.metrics.terms.scheduled <= today
  }

  function Latest(rows: seq<Row>, b: nat, today: int, n: nat): Option<int>
    requires n <= |rows|
  {
    if n == 0 then None
    else
      var d := Latest(rows, b, today, n - 1);
      if !Due(rows[n - 1], b, today) then d
      else if d.None? || d.value < rows[n - 1].metrics.terms.scheduled then Some(rows[n - 1].metrics.terms.scheduled)
      else d
  }

  ghost predicate AnyOpen(db: Db, b: nat) {
    exists i: nat :: IsOpen(db, b, i)
  }

  ghost function SweptOne(p: Outside, db: Db, b: nat, today: int): (t: Db)
    requires b < |db.closed|
    ensures |t.rows| == |db.rows| && |t.closed| == |db.closed|
  {
    match Latest(db.rows, b, today, |db.rows|)
    case None => db
    case Some(end) =>
      var (t, raised) := MaturedFrom(p, db, b, end, 0);
      if raised || AnyOpen(t, b) then t else t.(closed := t.closed[b := true])
  }

  /** The pass over `left` backtests from b on; a backtest that raises is skipped. */
  ghost function Swept(p: Outside, db: Db, b: nat, today: int, left: nat): Db
    requires b + left <= |db.closed|
    decreases left
  {
    if left == 0 then db else Swept(p, SweptOne(p, db, b, today), b + 1, today, left - 1)
  }

  ghost function Pass(p: Outside, db: Db, today: int): Db {
    Swept(p, db, 0, today, |db.closed|)
  }

  // ----- opening -----

  /** The close of the day, or the last one of the five days before it. */
  function Spot(p: Outside, ticker: string, day: int): Result<real> {
    var exact := p.prices(ticker, day, day);
    if exact.Ok? && exact.value != [] then Ok(exact.value[0])
    else
      match p.prices(ticker, day - 5, day)
      case Raised(e) => Raised(e)
      case Ok(closes) => if closes == [] then Raised("no bars") else Ok(closes[|closes| - 1])
  }

  /** A ticker's closes from day a to day b. */
  function ClosesBetween(history: map<int, real>, a: int, b: int): seq<real>
    decreases b - a
  {
    if a > b then [] else ClosesBetween(history, a, b - 1) + if b in history then [history[b]] else []
  }

  ghost predicate LatestCloseIs(history: map<int, real>, a: int, b: int, close: real) {
    exists d | a <= d <= b && d in history :: history[d] == close && forall e | d < e <= b :: e !in history
  }

  lemma {:induction false} LastClose(history: map<int, real>, a: int, b: int)
    ensures var closes := ClosesBetween(history, a, b);
            if closes == [] then forall d | a <= d <= b :: d !in history
            else LatestCloseIs(history, a, b, closes[|closes| - 1])
    decreases b - a
  {
    if a <= b && b !in history {
      LastClose(history, a, b - 1);
    }
  }

  /** The entry price is the last close up to the day, not more than five days old; it fails exactly if there is none. */
  lemma SpotIsLatestClose(p: Outside, ticker: string, history: map<int, real>, day: int)
    requires forall a, b :: p.prices(ticker, a, b) == Ok(ClosesBetween(history, a, b))
    ensures var spot := Spot(p, ticker, day);
            if spot.Raised? then forall d | day - 5 <= d <= day :: d !in history
            else LatestCloseIs(history, day - 5, day, spot.value)
  {
    LastClose(history, day - 5, day);
    LastClose(history, day, day);
    assert ClosesBetween(history, day, day - 1) == [];
  }

  /** One run to test forward: `graph` is the run's id, or its failure. */
  datatype Seed = Seed(persona: string, ticker: string, graph: Result<nat>, decision: string)

  /** An unknown decision is held flat. */
  function PositionOf(decision: string): (r: int)
    ensures r == if Says(decision, "BUY") then 1 else if Says(decision, "SELL") then -1 else 0
  {
    match PositionFromDecision(decision)
    case Ok(position) => position
    case Raised(_) => 0
  }

  function OpenedRow(p: Outside, b: nat, seed: Seed, run: nat, start: int, end: int): Row {
    Row(b, seed.persona, seed.ticker,
        match Spot(p, seed.ticker, start)
        case Ok(price) =>
          var benchmark := Spot(p, BENCHMARK, start);
          Open(Terms(run, seed.decision, PositionOf(seed.decision), start, price,
                     if benchmark.Ok? then Some(benchmark.value) else None, end))
        case Raised(_) => Unpriced(run))
  }

  /** The row of a seed, whatever became of it: its run, decision and position, its entry prices, and its schedule. */
  ghost predicate Begins(p: Outside, row: Row, b: nat, seed: Seed, start: int, end: int) {
    && seed.graph.Ok? && row.backtest == b && row.persona == seed.persona && row.ticker == seed.ticker
    && row.metrics.Run() == seed.graph.value
    && (row.metrics.Unpriced? <==> Spot(p, seed.ticker, start).Raised?)
    && (!row.metrics.Unpriced? ==>
          && var terms := row.metrics.terms;
          && terms.decision == seed.decision && terms.entryDate == start && terms.scheduled == end
          && terms.position == (if Says(seed.decision, "BUY") then 1 else if Says(seed.decision, "SELL") then -1 else 0)
          && Ok(terms.entryPrice) == Spot(p, seed.ticker, start)
          && (match Spot(p, "SPY", start)
              case Ok(price) => terms.benchmarkEntry == Some(price)
              case Raised(_) => terms.benchmarkEntry == None))
  }

  /** The rows of the seeds from the first on, up to one whose graph run failed, behind the rows there were. */
  ghost predicate Begun(p: Outside, before: seq<Row>, after: seq<Row>, b: nat, seeds: seq<Seed>, start: int, end: int) {
    && |before| <= |after| <= |before| + |seeds|
    && (forall k | 0 <= k < |before| :: after[k] == before[k])
    && (forall k | 0 <= k < |after| - |before| :: Begins(p, after[|before| + k], b, seeds[k], start, end))
    && (|after| < |before| + |seeds| ==> seeds[|after| - |before|].graph.Raised?)
  }

  function OpenedFrom(p: Outside, db: Db, b: nat, seeds: seq<Seed>, start: int, end: int): (r: (Db, bool))
    ensures r.0.closed == db.closed
    decreases seeds
  {
    if seeds == [] then (db, false)
    else
      match seeds[0].graph
      case Raised(_) => (db, true)
      case Ok(run) =>
        OpenedFrom(p, db.(runs := db.runs + {run}, rows := db.rows + [OpenedRow(p, b, seeds[0], run, start, end)]),
                   b, seeds[1..], start, end)
  }

  /** The launch ends with an exception: a graph run failed, or maturing raised. */
  ghost predicate LaunchRaises(p: Outside, db: Db, seeds: seq<Seed>, start: int, end: int, today: int) {
    var (begun, raised) := OpenedFrom(p, db.(closed := db.closed + [false]), |db.closed|, seeds, start, end);
    raised || (end <= today && MaturedFrom(p, begun, |db.closed|, end, 0).1)
  }

  lemma OpenedRowBegins(p: Outside, b: nat, seed: Seed, start: int, end: int)
    requires seed.graph.Ok?
    ensures Begins(p, OpenedRow(p, b, seed, seed.graph.value, start, end), b, seed, start, end)
  {
  }

  lemma BegunOneMore(p: Outside, before: seq<Row>, row: Row, after: seq<Row>, b: nat, seeds: seq<Seed>, start: int, end: int)
    requires seeds != [] && Begins(p, row, b, seeds[0], start, end)
    requires Begun(p, before + [row], after, b, seeds[1..], start, end)
    ensures Begun(p, before, after, b, seeds, start, end)
  {
    assert after[|before|] == (before + [row])[|before|];
    forall k | 0 <= k < |after| - |before|
      ensures Begins(p, after[|before| + k], b, seeds[k], start, end)
    {
      if k > 0 {
        assert Begins(p, after[|before + [row]| + (k - 1)], b, seeds[1..][k - 1], start, end);
      }
    }
  }

  lemma {:induction false} OpenedMeans(p: Outside, db: Db, b: nat, seeds: seq<Seed>, start: int, end: int)
    ensures var (t, raised) := OpenedFrom(p, db, b, seeds, start, end);
            && Begun(p, db.rows, t.rows, b, seeds, start, end)
            && t == db.(rows := t.rows, runs := t.runs) && (raised <==> |t.rows| < |db.rows| + |seeds|)
    decreases seeds
  {
    if seeds != [] && seeds[0].graph.Ok? {
      var row := OpenedRow(p, b, seeds[0], seeds[0].graph.value, start, end);
      var next := db.(runs := db.runs + {seeds[0].graph.value}, rows := db.rows + [row]);
      OpenedRowBegins(p, b, seeds[0], start, end);
      OpenedMeans(p, next, b, seeds[1..], start, end);
      BegunOneMore(p, db.rows, row, OpenedFrom(p, next, b, seeds[1..], start, end).0.rows, b, seeds, start, end);
    }
  }

  /** A row keeps all it was opened with, and only an open row of the backtest changes. */
  ghost predicate KeepsTerms(r: Row, s: Row, b: nat) {
    || s == r
    || (r.backtest == b && r.metrics.Open? && !s.metrics.Unpriced? && s == r.(metrics := s.metrics) && s.metrics.terms == r.metrics.terms)
  }

  lemma {:induction false} MaturedFromKeepsTerms(p: Outside, db: Db, b: nat, end: int, i: nat)
    ensures var t := MaturedFrom(p, db, b, end, i).0;
            |t.rows| == |db.rows| && forall k | 0 <= k < |db.rows| :: KeepsTerms(db.rows[k], t.rows[k], b)
    decreases |db.rows| - i
  {
    if i < |db.rows| && !IsOpen(db, b, i) {
      MaturedFromKeepsTerms(p, db, b, end, i + 1);
    } else if i < |db.rows| && !MatureRaises(p, db, i, end) {
      MaturedFromKeepsTerms(p, Matured(p, db, i, end), b, end, i + 1);
    }
  }

  lemma BegunStays(p: Outside, before: seq<Row>, after: seq<Row>, later: seq<Row>, b: nat, seeds: seq<Seed>, start: int, end: int)
    requires Begun(p, before, after, b, seeds, start, end) && forall r | r in before :: r.backtest != b
    requires |later| == |after| && forall k | 0 <= k < |after| :: KeepsTerms(after[k], later[k], b)
    ensures Begun(p, before, later, b, seeds, start, end)
  {
    forall k | 0 <= k < |after| - |before|
      ensures Begins(p, later[|before| + k], b, seeds[k], start, end)
    {
      assert Begins(p, after[|before| + k], b, seeds[k], start, end) && KeepsTerms(after[|before| + k], later[|before| + k], b);
    }
    assert forall k | 0 <= k < |before| :: KeepsTerms(after[k], later[k], b) && before[k] in before;
  }

  /**
   A launch leaves the rows there were as they are and adds, in order, one row a seed up to the
   first failed graph run, each with its run, decision, position, prices and schedule.
   */
  lemma LaunchBegins(p: Outside, db: Db, seeds: seq<Seed>, start: int, end: int, today: int)
    requires forall r | r in db.rows :: r.backtest < |db.closed|
    ensures end > today ==> (LaunchRaises(p, db, seeds, start, end, today) <==> exists k | 0 <= k < |seeds| :: seeds[k].graph.Raised?)
    ensures Begun(p, db.rows, Launched(p, db, seeds, start, end, today).rows, |db.closed|, seeds, start, end)
  {
    var b := |db.closed|;
    var empty := db.(closed := db.closed + [false]);
    OpenedMeans(p, empty, b, seeds, start, end);
    var (begun, raised) := OpenedFrom(p, empty, b, seeds, start, end);
    MaturedFromKeepsTerms(p, begun, b, end, 0);
    BegunStays(p, db.rows, begun.rows, MaturedFrom(p, begun, b, end, 0).0.rows, b, seeds, start, end);
  }

  /** A backtest over the seeds, matured at once if its window has already passed. */
  ghost function Launched(p: Outside, db: Db, seeds: seq<Seed>, start: int, end: int, today: int): Db {
    var b := |db.closed|;
    var (begun, raised) := OpenedFrom(p, db.(closed := db.closed + [false]), b, seeds, start, end);
    if raised || end > today then begun
    else
      var (t, failed) := MaturedFrom(p, begun, b, end, 0);
      if failed then t else t.(closed := t.closed[b := true])
  }

  // ----- what the harness keeps -----

  ghost predicate Linked(db: Db) {
    forall i | 0 <= i < |db.rows| :: db.rows[i].backtest < |db.closed| && db.rows[i].metrics.Run() in db.runs
  }

  /** All open rows of a backtest close on the same day. */
  ghost predicate Shared(db: Db) {
    forall i, j | 0 <= i < |db.rows| && 0 <= j < |db.rows| ::
      db.rows[i].metrics.Open? && db.rows[j].metrics.Open? && db.rows[i].backtest == db.rows[j].backtest ==>
        db.rows[i].metrics.terms.scheduled == db.rows[j].metrics.terms.scheduled
  }

  ghost predicate OnTime(db: Db) {
    forall i | 0 <= i < |db.rows| && db.rows[i].metrics.Closed? :: db.rows[i].metrics.results.closeDate == db.rows[i].metrics.terms.scheduled
  }

  /** No closed backtest has an open row. */
  ghost predicate Honest(db: Db) {
    forall b, i | 0 <= b < |db.closed| && db.closed[b] && 0 <= i < |db.rows| && db.rows[i].backtest == b ::
      !db.rows[i].metrics.Open?
  }

  function LogOf(rows: seq<Row>, n: nat): multiset<Outcome>
    requires n <= |rows|
  {
    if n == 0 then multiset{}
    else if rows[n - 1].metrics.Closed? then LogOf(rows, n - 1) + multiset{OutcomeOf(rows[n - 1])}
    else LogOf(rows, n - 1)
  }

  /** Each closed row has exactly one outcome-log row, with its run, decision, returns and date, in the log or lost. */
  ghost predicate Balanced(db: Db) {
    multiset(db.log) + multiset(db.lost) == LogOf(db.rows, |db.rows|)
  }

  ghost predicate Good(db: Db) {
    Linked(db) && Shared(db) && OnTime(db) && Honest(db) && Balanced(db)
  }

  /** A row stays as it is, or closes or errs on `end`, its scheduled day, keeping what it was opened with. */
  ghost predicate Advances(r: Row, s: Row, end: int) {
    || s == r
    || (&& r.metrics.Open? && s == r.(metrics := s.metrics) && r.metrics.terms.scheduled == end
        && (s.metrics == Errored(r.metrics.terms)
            || (s.metrics.Closed? && s.metrics.terms == r.metrics.terms && s.metrics.results.closeDate == end)))
  }

  lemma {:induction false} LogOfUpdate(rows: seq<Row>, i: nat, s: Row, n: nat)
    requires i < |rows| && n <= |rows| && !rows[i].metrics.Closed?
    ensures LogOf(rows[i := s], n)
         == LogOf(rows, n) + if i < n && s.metrics.Closed? then multiset{OutcomeOf(s)} else multiset{}
  {
    if n > 0 {
      LogOfUpdate(rows, i, s, n - 1);
    }
  }

  lemma MaturedBalanced(p: Outside, db: Db, i: nat, end: int)
    requires i < |db.rows| && db.rows[i].metrics.Open? && Linked(db) && Balanced(db)
    ensures Balanced(Matured(p, db, i, end))
  {
    var t := Matured(p, db, i, end);
    if t != db {
      LogOfUpdate(db.rows, i, t.rows[i], |db.rows|);
      if t.rows[i].metrics.Closed? {
        var outcome := OutcomeOf(t.rows[i]);
        assert multiset(db.log + [outcome]) == multiset(db.log) + multiset{outcome};
        assert multiset(db.lost + [outcome]) == multiset(db.lost) + multiset{outcome};
      }
    }
  }

  lemma ReplacedKeeps(db: Db, t: Db, i: nat, end: int)
    requires Linked(db) && Shared(db) && OnTime(db) && Honest(db)
    requires i < |db.rows| == |t.rows| && t.closed == db.closed && t.runs == db.runs
    requires forall k | 0 <= k < |db.rows| && k != i :: t.rows[k] == db.rows[k]
    requires Advances(db.rows[i], t.rows[i], end)
    ensures Linked(t) && OnTime(t) && Honest(t) && Shared(t)
  {
  }

  lemma MaturedRow(p: Outside, db: Db, i: nat, end: int)
    requires i < |db.rows| && db.rows[i].metrics.Open? && db.rows[i].metrics.Run() in db.runs
    requires db.rows[i].metrics.terms.scheduled == end
    ensures var t := Matured(p, db, i, end);
            && db.log <= t.log && t.closed == db.closed && t.runs == db.runs && |t.rows| == |db.rows|
            && (forall k | 0 <= k < |db.rows| && k != i :: t.rows[k] == db.rows[k])
            && Advances(db.rows[i], t.rows[i], end)
            && (if Blocked(p, db, i, end) then t == db else !t.rows[i].metrics.Open?)
            && (if MatureRaises(p, db, i, end) && !Blocked(p, db, i, end)
                then !p.logged(i) && t.rows[i].metrics.Closed? && |t.lost| == |db.lost| + 1 else t.lost == db.lost)
  {
  }

  lemma MaturedKeeps(p: Outside, db: Db, i: nat, end: int)
    requires i < |db.rows| && db.rows[i].metrics.Open? && Good(db) && db.rows[i].metrics.terms.scheduled == end
    ensures Good(Matured(p, db, i, end))
  {
    MaturedRow(p, db, i, end);
    MaturedBalanced(p, db, i, end);
    ReplacedKeeps(db, Matured(p, db, i, end), i, end);
  }

  /** What maturing a backtest from row i on leaves behind. */
  ghost predicate Maturing(db: Db, t: Db, b: nat, end: int, i: nat) {
    && db.log <= t.log && |db.lost| <= |t.lost| && t.closed == db.closed && t.runs == db.runs && |t.rows| == |db.rows|
    && (forall k | 0 <= k < |db.rows| :: Advances(db.rows[k], t.rows[k], end))
    && (forall k | 0 <= k < |db.rows| && (k < i || db.rows[k].backtest != b) :: t.rows[k] == db.rows[k])
  }

  /** Row k is the first open row of the backtest from row i on, and nothing comes of maturing it. */
  ghost predicate StuckAt(p: Outside, db: Db, b: nat, end: int, i: nat, k: nat) {
    && i <= k && IsOpen(db, b, k) && Blocked(p, db, k, end)
    && (forall j: nat | i <= j < k :: !IsOpen(db, b, j))
  }

  /** Row k was closed without its outcome-log row, and no row of the backtest from row i to there is open any more. */
  ghost predicate CutAt(p: Outside, db: Db, t: Db, b: nat, i: nat, k: nat) {
    && i <= k < |t.rows| && IsOpen(db, b, k) && t.rows[k].metrics.Closed? && !p.logged(k) && |db.lost| < |t.lost|
    && (forall j: nat | i <= j < k :: !IsOpen(t, b, j))
  }

  ghost predicate OpenUntil(db: Db, b: nat, end: int) {
    forall k: nat | IsOpen(db, b, k) :: db.rows[k].metrics.terms.scheduled == end
  }

  lemma MaturingStep(p: Outside, db: Db, i: nat, t: Db, b: nat, end: int)
    requires IsOpen(db, b, i) && db.rows[i].metrics.terms.scheduled == end && db.rows[i].metrics.Run() in db.runs
    requires Maturing(Matured(p, db, i, end), t, b, end, i + 1)
    ensures Maturing(db, t, b, end, i)
  {
    MaturedRow(p, db, i, end);
  }

  /** The loop ended at a row that raises, leaving it open or cut, or went through all rows and lost nothing. */
  ghost predicate Finished(p: Outside, db: Db, t: Db, b: nat, end: int, i: nat, raised: bool) {
    if raised then exists k: nat :: StuckAt(p, t, b, end, i, k) || CutAt(p, db, t, b, i, k)
    else |t.lost| == |db.lost| && forall k: nat | i <= k :: !IsOpen(t, b, k)
  }

  lemma NotStuckYet(p: Outside, db: Db, next: Db, t: Db, b: nat, end: int, i: nat, raised: bool)
    requires !IsOpen(t, b, i) && Finished(p, next, t, b, end, i + 1, raised)
    requires |next.lost| == |db.lost| && forall k: nat | i < k && IsOpen(next, b, k) :: IsOpen(db, b, k)
    ensures Finished(p, db, t, b, end, i, raised)
  {
    if raised {
      var k: nat :| StuckAt(p, t, b, end, i + 1, k) || CutAt(p, next, t, b, i + 1, k);
      assert StuckAt(p, t, b, end, i, k) || CutAt(p, db, t, b, i, k);
    }
  }

  /** One more open row matured: the database stays good, and the rest is still due on `end`. */
  lemma MaturedNext(p: Outside, db: Db, b: nat, end: int, i: nat)
    requires Good(db) && OpenUntil(db, b, end) && IsOpen(db, b, i)
    ensures Good(Matured(p, db, i, end))
    ensures if Blocked(p, db, i, end) then Matured(p, db, i, end) == db else !IsOpen(Matured(p, db, i, end), b, i)
    ensures OpenUntil(Matured(p, db, i, end), b, end)
  {
    MaturedRow(p, db, i, end);
    MaturedKeeps(p, db, i, end);
    if !Blocked(p, db, i, end) {
      StillUntil(db, Matured(p, db, i, end), b, end, i);
    }
  }

  lemma {:induction false} MaturedFromGood(p: Outside, db: Db, b: nat, end: int, i: nat)
    requires Good(db) && OpenUntil(db, b, end)
    ensures Good(MaturedFrom(p, db, b, end, i).0) && OpenUntil(MaturedFrom(p, db, b, end, i).0, b, end)
    decreases |db.rows| - i
  {
    if i < |db.rows| && !IsOpen(db, b, i) {
      MaturedFromGood(p, db, b, end, i + 1);
    } else if i < |db.rows| {
      MaturedNext(p, db, b, end, i);
      if !MatureRaises(p, db, i, end) {
        MaturedFromGood(p, Matured(p, db, i, end), b, end, i + 1);
      }
    }
  }

  lemma {:induction false} MaturedFromMaturing(p: Outside, db: Db, b: nat, end: int, i: nat)
    requires Good(db) && OpenUntil(db, b, end)
    ensures Maturing(db, MaturedFrom(p, db, b, end, i).0, b, end, i)
    decreases |db.rows| - i
  {
    if i < |db.rows| && !IsOpen(db, b, i) {
      MaturedFromMaturing(p, db, b, end, i + 1);
    } else if i < |db.rows| {
      MaturedNext(p, db, b, end, i);
      if !MatureRaises(p, db, i, end) {
        MaturedFromMaturing(p, Matured(p, db, i, end), b, end, i + 1);
        MaturingStep(p, db, i, MaturedFrom(p, db, b, end, i).0, b, end);
      } else {
        MaturedRow(p, db, i, end);
      }
    }
  }

  lemma {:induction false} MaturedFromFinished(p: Outside, db: Db, b: nat, end: int, i: nat)
    requires Good(db) && OpenUntil(db, b, end)
    ensures Finished(p, db, MaturedFrom(p, db, b, end, i).0, b, end, i, MaturedFrom(p, db, b, end, i).1)
    decreases |db.rows| - i
  {
    var (t, raised) := MaturedFrom(p, db, b, end, i);
    if i < |db.rows| && !IsOpen(db, b, i) {
      MaturedFromFinished(p, db, b, end, i + 1);
      MaturedFromMaturing(p, db, b, end, i + 1);
      NotStuckYet(p, db, db, t, b, end, i, raised);
    } else if i < |db.rows| {
      MaturedNext(p, db, b, end, i);
      MaturedRow(p, db, i, end);
      if MatureRaises(p, db, i, end) {
        assert StuckAt(p, t, b, end, i, i) || CutAt(p, db, t, b, i, i);
      } else {
        MaturedFromFinished(p, Matured(p, db, i, end), b, end, i + 1);
        MaturedFromMaturing(p, Matured(p, db, i, end), b, end, i + 1);
        NotStuckYet(p, db, Matured(p, db, i, end), t, b, end, i, raised);
      }
    }
  }

  lemma MaturedFromKeeps(p: Outside, db: Db, b: nat, end: int, i: nat)
    requires Good(db) && OpenUntil(db, b, end)
    ensures Good(MaturedFrom(p, db, b, end, i).0) && Maturing(db, MaturedFrom(p, db, b, end, i).0, b, end, i)
    ensures OpenUntil(MaturedFrom(p, db, b, end, i).0, b, end)
    ensures Finished(p, db, MaturedFrom(p, db, b, end, i).0, b, end, i, MaturedFrom(p, db, b, end, i).1)
  {
    MaturedFromGood(p, db, b, end, i);
    MaturedFromMaturing(p, db, b, end, i);
    MaturedFromFinished(p, db, b, end, i);
  }

  lemma StillUntil(db: Db, t: Db, b: nat, end: int, i: nat)
    requires OpenUntil(db, b, end) && i < |db.rows| == |t.rows| && !t.rows[i].metrics.Open?
    requires forall k | 0 <= k < |db.rows| && k != i :: t.rows[k] == db.rows[k]
    ensures OpenUntil(t, b, end)
  {
  }

  // ----- what one sweep keeps -----

  lemma {:induction false} LatestMeans(rows: seq<Row>, b: nat, today: int, n: nat)
    requires n <= |rows|
    ensures match Latest(rows, b, today, n)
            case None => forall k | 0 <= k < n :: !Due(rows[k], b, today)
            case Some(end) =>
              && (exists k | 0 <= k < n :: Due(rows[k], b, today) && rows[k].metrics.terms.scheduled == end)
              && (forall k | 0 <= k < n && Due(rows[k], b, today) :: rows[k].metrics.terms.scheduled <= end)
  {
    if n > 0 {
      LatestMeans(rows, b, today, n - 1);
    }
  }

  /** A row stays as it is, or leaves the open state on its scheduled day, which is not after today. */
  ghost predicate SweepsRow(r: Row, s: Row, today: int) {
    s == r || (r.metrics.Open? && r.metrics.terms.scheduled <= today && Advances(r, s, r.metrics.terms.scheduled) && !s.metrics.Open?)
  }

  ghost predicate Sweeping(db: Db, t: Db, today: int) {
    && db.log <= t.log && |db.lost| <= |t.lost| && t.runs == db.runs && |t.rows| == |db.rows| && |t.closed| == |db.closed|
    && (forall k | 0 <= k < |db.rows| :: SweepsRow(db.rows[k], t.rows[k], today))
    && (forall c | 0 <= c < |db.closed| && db.closed[c] :: t.closed[c])
  }

  /** Sweeping this backtest again would change nothing: nothing is due, or its first open row raises. */
  ghost predicate Quiet(p: Outside, db: Db, b: nat, today: int) {
    || Latest(db.rows, b, today, |db.rows|).None?
    || exists k: nat :: k < |db.rows| && db.rows[k].metrics.Open? && StuckAt(p, db, b, db.rows[k].metrics.terms.scheduled, 0, k)
  }

  /** After a sweep of the backtest it is quiet, or one of its rows was closed without its outcome-log row. */
  ghost predicate Settled(p: Outside, db: Db, t: Db, b: nat, today: int) {
    Quiet(p, t, b, today) || exists k: nat :: CutAt(p, db, t, b, 0, k)
  }

  lemma LatestIsShared(db: Db, b: nat, today: int)
    requires Shared(db) && Latest(db.rows, b, today, |db.rows|).Some?
    ensures Latest(db.rows, b, today, |db.rows|).value <= today
    ensures OpenUntil(db, b, Latest(db.rows, b, today, |db.rows|).value)
  {
    LatestMeans(db.rows, b, today, |db.rows|);
  }

  lemma SweptOneKeeps(p: Outside, db: Db, b: nat, today: int)
    requires Good(db) && b < |db.closed|
    ensures var t := SweptOne(p, db, b, today);
            && Good(t) && Sweeping(db, t, today) && Settled(p, db, t, b, today)
            && (forall k | 0 <= k < |db.rows| && db.rows[k].backtest != b :: t.rows[k] == db.rows[k])
  {
    var latest := Latest(db.rows, b, today, |db.rows|);
    if latest.Some? {
      LatestIsShared(db, b, today);
      var (t, raised) := MaturedFrom(p, db, b, latest.value, 0);
      MaturedFromKeeps(p, db, b, latest.value, 0);
      MaturingIsSweeping(p, db, t, b, latest.value, today, raised);
      if !raised {
        NoneOpen(p, db, t, b, latest.value, today);
      }
    }
  }

  lemma NoneOpen(p: Outside, db: Db, t: Db, b: nat, end: int, today: int)
    requires Good(t) && b < |t.closed| && Finished(p, db, t, b, end, 0, false)
    ensures !AnyOpen(t, b) && Good(t.(closed := t.closed[b := true]))
    ensures Latest(t.rows, b, today, |t.rows|).None?
  {
    LatestMeans(t.rows, b, today, |t.rows|);
    ClosingKeeps(t, b);
    assert forall k: nat | k < |t.rows| && Due(t.rows[k], b, today) :: IsOpen(t, b, k);
  }

  lemma ClosingKeeps(db: Db, b: nat)
    requires Good(db) && b < |db.closed| && !AnyOpen(db, b)
    ensures Good(db.(closed := db.closed[b := true]))
  {
    assert forall k: nat | k < |db.rows| && db.rows[k].backtest == b && db.rows[k].metrics.Open? :: IsOpen(db, b, k);
  }

  lemma MaturingIsSweeping(p: Outside, db: Db, t: Db, b: nat, end: int, today: int, raised: bool)
    requires Maturing(db, t, b, end, 0) && end <= today && Finished(p, db, t, b, end, 0, raised) && OpenUntil(t, b, end)
    ensures Sweeping(db, t, today)
    ensures raised ==> Settled(p, db, t, b, today)
  {
  }

  // ----- a second sweep the same day, over the same prices -----

  lemma {:induction false} LatestDepends(rows: seq<Row>, others: seq<Row>, b: nat, today: int, n: nat)
    requires n <= |rows| == |others|
    requires forall k | 0 <= k < |rows| && (rows[k].backtest == b || others[k].backtest == b) :: others[k] == rows[k]
    ensures Latest(others, b, today, n) == Latest(rows, b, today, n)
  {
    if n > 0 {
      LatestDepends(rows, others, b, today, n - 1);
    }
  }

  ghost predicate SameBacktest(db: Db, t: Db, b: nat) {
    && |t.rows| == |db.rows| && t.runs == db.runs
    && forall k | 0 <= k < |db.rows| && (db.rows[k].backtest == b || t.rows[k].backtest == b) :: t.rows[k] == db.rows[k]
  }

  lemma QuietDepends(p: Outside, db: Db, t: Db, b: nat, today: int)
    requires Quiet(p, db, b, today) && SameBacktest(db, t, b)
    ensures Quiet(p, t, b, today)
  {
    LatestDepends(db.rows, t.rows, b, today, |db.rows|);
    if Latest(db.rows, b, today, |db.rows|).Some? {
      var k: nat :| k < |db.rows| && db.rows[k].metrics.Open? && StuckAt(p, db, b, db.rows[k].metrics.terms.scheduled, 0, k);
      assert forall j: nat :: IsOpen(t, b, j) <==> IsOpen(db, b, j);
      assert StuckAt(p, t, b, t.rows[k].metrics.terms.scheduled, 0, k);
    }
  }

  /** Before, other rows may have been swept already; after, they may still be. */
  lemma SettledDepends(p: Outside, db: Db, start: Db, next: Db, t: Db, b: nat, today: int)
    requires Settled(p, start, next, b, today) && SameBacktest(db, start, b) && SameBacktest(next, t, b)
    requires |db.lost| <= |start.lost| && |next.lost| <= |t.lost| && Sweeping(start, next, today)
    ensures Settled(p, db, t, b, today)
  {
    KeepsBacktests(start, next, today);
    if Quiet(p, next, b, today) {
      QuietDepends(p, next, t, b, today);
    } else {
      var k: nat :| CutAt(p, start, next, b, 0, k);
      assert forall j: nat :: IsOpen(t, b, j) <==> IsOpen(next, b, j);
      assert CutAt(p, db, t, b, 0, k);
    }
  }

  lemma {:induction false} StuckFixed(p: Outside, db: Db, b: nat, end: int, i: nat, k: nat)
    requires StuckAt(p, db, b, end, i, k) && db.rows[k].metrics.Run() in db.runs
    ensures MaturedFrom(p, db, b, end, i) == (db, true)
    decreases k - i
  {
    if i < k {
      assert StuckAt(p, db, b, end, i + 1, k);
      StuckFixed(p, db, b, end, i + 1, k);
    }
  }

  lemma QuietFixed(p: Outside, db: Db, b: nat, today: int)
    requires b < |db.closed| && Good(db) && Quiet(p, db, b, today)
    ensures SweptOne(p, db, b, today) == db
  {
    var latest := Latest(db.rows, b, today, |db.rows|);
    if latest.Some? {
      var k: nat :| k < |db.rows| && db.rows[k].metrics.Open? && StuckAt(p, db, b, db.rows[k].metrics.terms.scheduled, 0, k);
      LatestIsShared(db, b, today);
      assert IsOpen(db, b, k);
      StuckFixed(p, db, b, latest.value, 0, k);
    }
  }

  lemma SweepingTwice(db: Db, t: Db, u: Db, today: int)
    requires Sweeping(db, t, today) && Sweeping(t, u, today)
    ensures Sweeping(db, u, today)
  {
  }

  /** After `left` backtests from b on: each of them is settled, and the others are as they were. */
  ghost predicate Through(p: Outside, db: Db, t: Db, b: nat, today: int, left: nat) {
    && Good(t) && Sweeping(db, t, today)
    && (forall c: nat | b <= c < b + left :: Settled(p, db, t, c, today))
    && (forall k | 0 <= k < |db.rows| && !(b <= db.rows[k].backtest < b + left) :: t.rows[k] == db.rows[k])
  }

  lemma ThroughOneMore(p: Outside, db: Db, next: Db, t: Db, b: nat, today: int, left: nat)
    requires Sweeping(db, next, today) && Settled(p, db, next, b, today)
    requires forall k | 0 <= k < |db.rows| && db.rows[k].backtest != b :: next.rows[k] == db.rows[k]
    requires Through(p, next, t, b + 1, today, left)
    ensures Through(p, db, t, b, today, left + 1)
  {
    SweepingTwice(db, next, t, today);
    KeepsBacktests(db, next, today);
    KeepsBacktests(next, t, today);
    SettledDepends(p, db, db, next, t, b, today);
    forall c: nat | b + 1 <= c < b + 1 + left
      ensures Settled(p, db, t, c, today)
    {
      SettledDepends(p, db, next, t, t, c, today);
    }
  }

  lemma {:induction false} SweptKeeps(p: Outside, db: Db, b: nat, today: int, left: nat)
    requires Good(db) && b + left <= |db.closed|
    ensures Through(p, db, Swept(p, db, b, today, left), b, today, left)
    decreases left
  {
    if left > 0 {
      var next := SweptOne(p, db, b, today);
      SweptOneKeeps(p, db, b, today);
      SweptKeeps(p, next, b + 1, today, left - 1);
      ThroughOneMore(p, db, next, Swept(p, next, b + 1, today, left - 1), b, today, left - 1);
    }
  }

  lemma KeepsBacktests(db: Db, t: Db, today: int)
    requires Sweeping(db, t, today)
    ensures forall k | 0 <= k < |db.rows| :: t.rows[k].backtest == db.rows[k].backtest
  {
  }

  lemma {:induction false} AllQuiet(p: Outside, db: Db, b: nat, today: int, left: nat)
    requires Good(db) && b + left == |db.closed| && forall c: nat | b <= c < |db.closed| :: Quiet(p, db, c, today)
    ensures Swept(p, db, b, today, left) == db
    decreases left
  {
    if left > 0 {
      QuietFixed(p, db, b, today);
      AllQuiet(p, db, b + 1, today, left - 1);
    }
  }

  // ----- the whole life of a database -----

  /** A sweep goes through the first `upto` backtests, unless its process ends before. */
  datatype Op =
    | Launch(seeds: seq<Seed>, start: int, end: int)
    | Sweep(upto: nat)

  /** One call on some day, with what it is told. */
  ghost function Apply(p: Outside, db: Db, op: Op, today: int): Db {
    match op
    case Launch(seeds, start, end) => Launched(p, db, seeds, start, end, today)
    case Sweep(upto) => Swept(p, db, 0, today, Min(upto, |db.closed|))
  }

  /** Any calls, on any days, in any order: call k on `days[k]`, told `told[k]`. */
  ghost function After(told: seq<Outside>, days: seq<int>, ops: seq<Op>): Db
    requires |told| == |days| == |ops|
  {
    if ops == [] then EMPTY
    else
      var n := |ops| - 1;
      Apply(told[n], After(told[..n], days[..n], ops[..n]), ops[n], days[n])
  }

  lemma LogOfAppend(rows: seq<Row>, row: Row, n: nat)
    requires n <= |rows| && !row.metrics.Closed?
    ensures LogOf(rows + [row], n) == LogOf(rows, n)
  {
  }

  /** The rows of an unfinished backtest b, all due on the same day. */
  ghost predicate Opening(db: Db, b: nat, end: int) {
    b < |db.closed| && !db.closed[b] && OpenUntil(db, b, end)
  }

  lemma OpenedOneKeeps(db: Db, b: nat, row: Row, end: int)
    requires Good(db) && Opening(db, b, end) && row.backtest == b && !row.metrics.Closed?
    requires row.metrics.Open? ==> row.metrics.terms.scheduled == end
    ensures var t := db.(runs := db.runs + {row.metrics.Run()}, rows := db.rows + [row]);
            Good(t) && Opening(t, b, end)
  {
    var t := db.(runs := db.runs + {row.metrics.Run()}, rows := db.rows + [row]);
    LogOfAppend(db.rows, row, |db.rows|);
    assert forall k: nat | k < |db.rows| && IsOpen(t, b, k) :: IsOpen(db, b, k);
    SharedAppend(db, t, b, end);
  }

  lemma SharedAppend(db: Db, t: Db, b: nat, end: int)
    requires Shared(db) && OpenUntil(db, b, end) && |t.rows| == |db.rows| + 1
    requires forall k | 0 <= k < |db.rows| :: t.rows[k] == db.rows[k]
    requires t.rows[|db.rows|].backtest == b
    requires t.rows[|db.rows|].metrics.Open? ==> t.rows[|db.rows|].metrics.terms.scheduled == end
    ensures Shared(t)
  {
  }

  lemma {:induction false} OpenedKeeps(p: Outside, db: Db, b: nat, seeds: seq<Seed>, start: int, end: int)
    requires Good(db) && Opening(db, b, end)
    ensures Good(OpenedFrom(p, db, b, seeds, start, end).0) && Opening(OpenedFrom(p, db, b, seeds, start, end).0, b, end)
    decreases seeds
  {
    if seeds != [] && seeds[0].graph.Ok? {
      var run := seeds[0].graph.value;
      OpenedOneKeeps(db, b, OpenedRow(p, b, seeds[0], run, start, end), end);
      OpenedKeeps(p, db.(runs := db.runs + {run}, rows := db.rows + [OpenedRow(p, b, seeds[0], run, start, end)]),
                  b, seeds[1..], start, end);
    }
  }

  lemma LaunchedKeeps(p: Outside, db: Db, seeds: seq<Seed>, start: int, end: int, today: int)
    requires Good(db)
    ensures Good(Launched(p, db, seeds, start, end, today))
  {
    var b := |db.closed|;
    var empty := db.(closed := db.closed + [false]);
    assert forall k: nat :: !IsOpen(empty, b, k);
    OpenedKeeps(p, empty, b, seeds, start, end);
    var (begun, raised) := OpenedFrom(p, empty, b, seeds, start, end);
    if !raised && end <= today {
      var (t, failed) := MaturedFrom(p, begun, b, end, 0);
      MaturedFromKeeps(p, begun, b, end, 0);
      if !failed {
        NoneOpen(p, begun, t, b, end, today);
      }
    }
  }

  lemma {:induction false} OpenedLeavesTheRest(p: Outside, db: Db, b: nat, seeds: seq<Seed>, start: int, end: int)
    ensures var t := OpenedFrom(p, db, b, seeds, start, end).0;
            && t == db.(rows := t.rows, runs := t.runs) && db.rows <= t.rows
            && forall k | |db.rows| <= k < |t.rows| :: t.rows[k].backtest == b && (t.rows[k].metrics.Open? || t.rows[k].metrics.Unpriced?)
    decreases seeds
  {
    if seeds != [] && seeds[0].graph.Ok? {
      var row := OpenedRow(p, b, seeds[0], seeds[0].graph.value, start, end);
      OpenedLeavesTheRest(p, db.(runs := db.runs + {seeds[0].graph.value}, rows := db.rows + [row]), b, seeds[1..], start, end);
    }
  }

  /**
   A launch whose window is not over yet leaves its rows open or without an entry price, its
   backtest open and the log alone. One whose window is over, and that does not raise, leaves
   none of its rows open and closes its backtest.
   */
  ghost predicate MaturesAtOnce(db: Db, t: Db, end: int, today: int, raised: bool) {
    && |t.closed| == |db.closed| + 1 && |db.rows| <= |t.rows| && t.closed[..|db.closed|] == db.closed
    && (end > today ==>
          && !t.closed[|db.closed|] && t.log == db.log && t.lost == db.lost
          && forall k | |db.rows| <= k < |t.rows| :: t.rows[k].metrics.Open? || t.rows[k].metrics.Unpriced?)
    && (end <= today && !raised ==> t.closed[|db.closed|] && !AnyOpen(t, |db.closed|))
  }

  lemma LaunchMatures(p: Outside, db: Db, seeds: seq<Seed>, start: int, end: int, today: int)
    requires Good(db)
    ensures MaturesAtOnce(db, Launched(p, db, seeds, start, end, today), end, today, LaunchRaises(p, db, seeds, start, end, today))
  {
    var b := |db.closed|;
    var empty := db.(closed := db.closed + [false]);
    OpenedLeavesTheRest(p, empty, b, seeds, start, end);
    assert forall k: nat :: !IsOpen(empty, b, k);
    OpenedKeeps(p, empty, b, seeds, start, end);
    var (begun, raised) := OpenedFrom(p, empty, b, seeds, start, end);
    if !raised && end <= today {
      var (t, failed) := MaturedFrom(p, begun, b, end, 0);
      MaturedFromKeeps(p, begun, b, end, 0);
      if !failed {
        NoneOpen(p, begun, t, b, end, today);
        assert forall k: nat :: IsOpen(t.(closed := t.closed[b := true]), b, k) <==> IsOpen(t, b, k);
      }
    }
  }

  /**
   Every database the harness and the sweep build, whatever fails on the way: rows of a
   backtest close together and on their scheduled day, no closed backtest has an open row, and
   each closed row has exactly one outcome-log row, in the log or lost by a failed insert.
   */
  lemma {:induction false} EveryDatabaseIsGood(told: seq<Outside>, days: seq<int>, ops: seq<Op>)
    requires |told| == |days| == |ops|
    ensures Good(After(told, days, ops))
  {
    if ops != [] {
      var n := |ops| - 1;
      EveryDatabaseIsGood(told[..n], days[..n], ops[..n]);
      var db := After(told[..n], days[..n], ops[..n]);
      match ops[n]
      case Launch(seeds, start, end) => LaunchedKeeps(told[n], db, seeds, start, end, days[n]);
      case Sweep(upto) => SweptKeeps(told[n], db, 0, days[n], Min(upto, |db.closed|));
    }
  }

  lemma LosingNothingIsQuiet(p: Outside, db: Db, t: Db, b: nat, today: int)
    requires Settled(p, db, t, b, today) && |t.lost| == |db.lost|
    ensures Quiet(p, t, b, today)
  {
  }

  lemma StableIfQuiet(p: Outside, t: Db, today: int)
    requires Good(t)
    ensures Pass(p, t, today) == t <==> forall c: nat | c < |t.closed| :: Quiet(p, t, c, today)
  {
    if forall c: nat | c < |t.closed| :: Quiet(p, t, c, today) {
      AllQuiet(p, t, 0, today, |t.closed|);
    }
    if Pass(p, t, today) == t {
      SweptKeeps(p, t, 0, today, |t.closed|);
      forall c: nat | c < |t.closed|
        ensures Quiet(p, t, c, today)
      {
        LosingNothingIsQuiet(p, t, t, c, today);
      }
    }
  }

  /**
   A sweep over such a database closes no row before its day, alters no closed or errored
   row, drops no log row, reopens no backtest. Sweeping again the same day, told the same,
   changes nothing exactly if every backtest is quiet: nothing is due, or the first open row is
   blocked. After a sweep that lost no outcome-log row that is so.
   */
  lemma SweepIsSafeAndStable(told: seq<Outside>, days: seq<int>, ops: seq<Op>, db: Db, p: Outside, today: int, t: Db)
    requires |told| == |days| == |ops| && db == After(told, days, ops) && t == Pass(p, db, today)
    ensures Good(t) && Sweeping(db, t, today)
    ensures Pass(p, t, today) == t <==> forall c: nat | c < |t.closed| :: Quiet(p, t, c, today)
    ensures |t.lost| == |db.lost| ==> Pass(p, t, today) == t
  {
    EveryDatabaseIsGood(told, days, ops);
    SweptKeeps(p, db, 0, today, |db.closed|);
    StableIfQuiet(p, t, today);
    if |t.lost| == |db.lost| {
      forall c: nat | c < |t.closed|
        ensures Quiet(p, t, c, today)
      {
        LosingNothingIsQuiet(p, db, t, c, today);
      }
    }
  }

  /** Row k keeps the rows behind it from being matured: nothing came of it, or its outcome-log row was lost. */
  ghost predicate Stops(p: Outside, db: Db, t: Db, k: nat) {
    && k < |t.rows| == |db.rows|
    && (|| (t.rows[k].metrics.Open? && Blocked(p, t, k, t.rows[k].metrics.terms.scheduled))
        || (db.rows[k].metrics.Open? && t.rows[k].metrics.Closed? && !p.logged(k)))
  }

  /** A due row that the sweep leaves open stands at or after a row of its backtest that stops the loop. */
  lemma DueRowLeftOpen(told: seq<Outside>, days: seq<int>, ops: seq<Op>, p: Outside, today: int, i: nat)
    requires |told| == |days| == |ops|
    requires var t := Pass(p, After(told, days, ops), today);
             i < |t.rows| && t.rows[i].metrics.Open? && t.rows[i].metrics.terms.scheduled <= today
    ensures var db := After(told, days, ops);
            var t := Pass(p, db, today);
            exists k: nat :: k <= i && Stops(p, db, t, k) && t.rows[k].backtest == t.rows[i].backtest
  {
    var db := After(told, days, ops);
    var t := Pass(p, db, today);
    EveryDatabaseIsGood(told, days, ops);
    SweptKeeps(p, db, 0, today, |db.closed|);
    var b := t.rows[i].backtest;
    LatestMeans(t.rows, b, today, |t.rows|);
    assert Due(t.rows[i], b, today) && IsOpen(t, b, i) && Settled(p, db, t, b, today);
    if Quiet(p, t, b, today) {
      var k: nat :| k < |t.rows| && t.rows[k].metrics.Open? && StuckAt(p, t, b, t.rows[k].metrics.terms.scheduled, 0, k);
      assert k <= i && Stops(p, db, t, k);
    } else {
      var k: nat :| CutAt(p, db, t, b, 0, k);
      KeepsBacktests(db, t, today);
      assert k <= i && Stops(p, db, t, k);
    }
  }

  // ----- a lost outcome-log row -----

  /** A backtest that has no open row and was not closed. */
  ghost predicate Forgotten(db: Db, b: nat) {
    b < |db.closed| && !db.closed[b] && !AnyOpen(db, b)
  }

  lemma ForgottenStays(db: Db, t: Db, c: nat)
    requires Forgotten(db, c) && c < |t.closed| && !t.closed[c] && |t.rows| == |db.rows|
    requires forall k | 0 <= k < |db.rows| && (db.rows[k].backtest == c || t.rows[k].backtest == c) :: t.rows[k] == db.rows[k]
    ensures Forgotten(t, c)
  {
    if AnyOpen(t, c) {
      var k: nat :| IsOpen(t, c, k);
      assert IsOpen(db, c, k);
    }
  }

  lemma {:induction false} SweptKeepsForgotten(p: Outside, db: Db, b: nat, today: int, left: nat, c: nat)
    requires Good(db) && b + left <= |db.closed| && Forgotten(db, c)
    ensures Forgotten(Swept(p, db, b, today, left), c)
    decreases left
  {
    if left > 0 {
      var next := SweptOne(p, db, b, today);
      SweptOneKeeps(p, db, b, today);
      LatestMeans(db.rows, b, today, |db.rows|);
      assert forall k: nat | k < |db.rows| && Due(db.rows[k], b, today) :: IsOpen(db, b, k);
      assert forall k: nat :: IsOpen(next, c, k) ==> IsOpen(db, c, k);
      SweptKeepsForgotten(p, next, b + 1, today, left - 1, c);
    }
  }

  lemma {:induction false} OpenedKeepsForgotten(p: Outside, db: Db, b: nat, seeds: seq<Seed>, start: int, end: int, c: nat)
    requires Forgotten(db, c) && c != b
    ensures Forgotten(OpenedFrom(p, db, b, seeds, start, end).0, c)
    decreases seeds
  {
    if seeds != [] && seeds[0].graph.Ok? {
      var run := seeds[0].graph.value;
      var t := db.(runs := db.runs + {run}, rows := db.rows + [OpenedRow(p, b, seeds[0], run, start, end)]);
      assert forall k: nat :: IsOpen(t, c, k) ==> IsOpen(db, c, k);
      OpenedKeepsForgotten(p, t, b, seeds[1..], start, end, c);
    }
  }

  lemma MaturedKeepsForgotten(p: Outside, db: Db, b: nat, end: int, c: nat)
    requires Good(db) && OpenUntil(db, b, end) && b < |db.closed| && Forgotten(db, c) && c != b
    ensures var t := MaturedFrom(p, db, b, end, 0).0; Forgotten(t, c) && Forgotten(t.(closed := t.closed[b := true]), c)
  {
    var t := MaturedFrom(p, db, b, end, 0).0;
    MaturedFromKeeps(p, db, b, end, 0);
    ForgottenStays(db, t, c);
    ForgottenStays(t, t.(closed := t.closed[b := true]), c);
  }

  lemma LaunchedKeepsForgotten(p: Outside, db: Db, seeds: seq<Seed>, start: int, end: int, today: int, c: nat)
    requires Good(db) && Forgotten(db, c)
    ensures Forgotten(Launched(p, db, seeds, start, end, today), c)
  {
    var b := |db.closed|;
    var empty := db.(closed := db.closed + [false]);
    assert forall k: nat :: !IsOpen(empty, b, k);
    assert forall k: nat :: IsOpen(empty, c, k) ==> IsOpen(db, c, k);
    OpenedKeeps(p, empty, b, seeds, start, end);
    OpenedKeepsForgotten(p, empty, b, seeds, start, end, c);
    var begun := OpenedFrom(p, empty, b, seeds, start, end).0;
    MaturedKeepsForgotten(p, begun, b, end, c);
  }

  /** The sweep of a due backtest leaves it forgotten exactly if it ends with no open row and lost an outcome-log row. */
  lemma ForgottenByLosing(p: Outside, db: Db, b: nat, today: int)
    requires Good(db) && b < |db.closed| && !db.closed[b] && Latest(db.rows, b, today, |db.rows|).Some?
    ensures var t := SweptOne(p, db, b, today); Forgotten(t, b) <==> !AnyOpen(t, b) && |db.lost| < |t.lost|
  {
    var end := Latest(db.rows, b, today, |db.rows|).value;
    LatestIsShared(db, b, today);
    var (t, raised) := MaturedFrom(p, db, b, end, 0);
    MaturedFromKeeps(p, db, b, end, 0);
    assert forall k: nat :: IsOpen(t.(closed := t.closed[b := true]), b, k) <==> IsOpen(t, b, k);
    if raised {
      var k: nat :| StuckAt(p, t, b, end, 0, k) || CutAt(p, db, t, b, 0, k);
      assert StuckAt(p, t, b, end, 0, k) ==> IsOpen(t, b, k);
    }
  }

  /** No later call ever closes a forgotten backtest: a sweep looks only at those with a due row. */
  lemma ForgottenForGood(p: Outside, db: Db, op: Op, today: int, c: nat)
    requires Good(db) && Forgotten(db, c)
    ensures Forgotten(Apply(p, db, op, today), c)
  {
    match op
    case Launch(seeds, start, end) => LaunchedKeepsForgotten(p, db, seeds, start, end, today, c);
    case Sweep(upto) => SweptKeepsForgotten(p, db, 0, today, Min(upto, |db.closed|), c);
  }

  /** One lost outcome-log row is enough: the sweep that closes a backtest's last row then leaves it forgotten. */
  lemma LostLogForgets(p: Outside, db: Db)
    requires db.rows == [Row(0, "", "A", Open(Terms(0, "BUY", 1, 0, 1.0, None, 1)))]
    requires db.closed == [false] && db.runs == {0} && p.prices("A", 0, 1) == Ok([1.0]) && p.written(0) && !p.logged(0)
    ensures var t := Pass(p, db, 1);
            t.rows[0].metrics.Closed? && t.log == db.log && |t.lost| == |db.lost| + 1 && Forgotten(t, 0)
  {
    assert Latest(db.rows, 0, 1, 0) == None;
    assert Latest(db.rows, 0, 1, 1) == Some(1);
    assert IsOpen(db, 0, 0) && MatureRaises(p, db, 0, 1) && !Blocked(p, db, 0, 1);
    assert MaturedFrom(p, db, 0, 1, 0) == (Matured(p, db, 0, 1), true);
    assert SweptOne(p, db, 0, 1) == Matured(p, db, 0, 1);
    assert Swept(p, SweptOne(p, db, 0, 1), 1, 1, 0) == SweptOne(p, db, 0, 1);
  }

  /** Rows of one backtest with different schedules, which the harness never builds, would close early. */
  lemma UnsharedRowsCloseEarly(p: Outside, db: Db)
    requires db.rows == [Row(0, "", "A", Open(Terms(0, "BUY", 1, 0, 1.0, None, 1))),
                         Row(0, "", "A", Open(Terms(0, "BUY", 1, 0, 1.0, None, 5)))]
    requires db.closed == [false] && db.runs == {0} && p.written(0) && p.written(1) && p.logged(0) && p.logged(1)
    requires p.prices("A", 0, 1) == Ok([1.0]) && p.prices(BENCHMARK, 0, 1) == Ok([1.0])
    ensures var t := Pass(p, db, 1);
            t.rows[1].metrics.Closed? && t.rows[1].metrics.results.closeDate == 1 && t.rows[1].metrics.terms.scheduled == 5
  {
    assert Latest(db.rows, 0, 1, 1) == Some(1) == Latest(db.rows, 0, 1, 2);
    var one := Matured(p, db, 0, 1);
    assert IsOpen(db, 0, 0) && IsOpen(one, 0, 1) && !MatureRaises(p, one, 1, 1);
    var two := Matured(p, one, 1, 1);
    assert MaturedFrom(p, two, 0, 1, 2) == (two, false);
    assert MaturedFrom(p, one, 0, 1, 1) == (two, false);
    assert Swept(p, SweptOne(p, db, 0, 1), 1, 1, 0) == SweptOne(p, db, 0, 1);
  }

  // ----- the counters of a sweep -----

  predicate CountsAsClosed(row: Row, b: nat, today: int) {
    row.backtest == b && row.metrics.Closed? && row.metrics.terms.scheduled <= today
  }

  function ClosedRows(rows: seq<Row>, b: nat, today: int, n: nat): nat
    requires n <= |rows|
  {
    if n == 0 then 0 else ClosedRows(rows, b, today, n - 1) + if CountsAsClosed(rows[n - 1], b, today) then 1 else 0
  }

  function DueRows(rows: seq<Row>, b: nat, today: int, n: nat): nat
    requires n <= |rows|
  {
    if n == 0 then 0 else DueRows(rows, b, today, n - 1) + if Due(rows[n - 1], b, today) then 1 else 0
  }

  function SkippedRows(rows: seq<Row>, b: nat, today: int, n: nat): nat
    requires n <= |rows|
  {
    if n == 0 then 0
    else
      SkippedRows(rows, b, today, n - 1)
      + if rows[n - 1].backtest == b && rows[n - 1].metrics.Open? && rows[n - 1].metrics.terms.scheduled > today then 1 else 0
  }

  ghost function NewlyClosed(rows: seq<Row>, after: seq<Row>, b: nat, n: nat): nat
    requires n <= |rows| == |after|
  {
    if n == 0 then 0
    else NewlyClosed(rows, after, b, n - 1)
         + if after[n - 1].backtest == b && rows[n - 1].metrics.Open? && after[n - 1].metrics.Closed? then 1 else 0
  }

  /** The count of closed rows of a swept backtest is not that of the rows closed now: it adds the earlier ones. */
  lemma {:induction false} ClosedCountsEarlierRows(db: Db, t: Db, b: nat, today: int, n: nat)
    requires Sweeping(db, t, today) && n <= |db.rows|
    ensures ClosedRows(t.rows, b, today, n) == ClosedRows(db.rows, b, today, n) + NewlyClosed(db.rows, t.rows, b, n)
  {
    if n > 0 {
      ClosedCountsEarlierRows(db, t, b, today, n - 1);
      assert SweepsRow(db.rows[n - 1], t.rows[n - 1], today);
    }
  }

  datatype Tally = Tally(closed: nat, skipped: nat, errored: nat) {
    function Plus(t: Tally): Tally {
      Tally(closed + t.closed, skipped + t.skipped, errored + t.errored)
    }
  }

  /** What the sweep of one backtest adds to the counters; a backtest that raises counts its due rows as errored. */
  ghost function TallyOf(p: Outside, db: Db, b: nat, today: int): Tally
    requires b < |db.closed|
  {
    var n := |db.rows|;
    var latest := Latest(db.rows, b, today, n);
    var raised := latest.Some? && MaturedFrom(p, db, b, latest.value, 0).1;
    Tally(if latest.None? || raised then 0 else ClosedRows(SweptOne(p, db, b, today).rows, b, today, n),
          SkippedRows(db.rows, b, today, n),
          if raised then DueRows(db.rows, b, today, n) else 0)
  }

  ghost function Totals(p: Outside, db: Db, b: nat, today: int, left: nat): Tally
    requires b + left == |db.closed|
    decreases left
  {
    if left == 0 then Tally(0, 0, 0)
    else TallyOf(p, db, b, today).Plus(Totals(p, SweptOne(p, db, b, today), b + 1, today, left - 1))
  }

  // ----- what the counters count -----

  /** The places, among the first n rows, of the backtest's open rows that are due. */
  ghost function DueIn(rows: seq<Row>, b: nat, today: int, n: nat): set<nat>
    requires n <= |rows|
  {
    set i: nat | i < n && rows[i].backtest == b && rows[i].metrics.Open? && rows[i].metrics.terms.scheduled <= today
  }

  ghost function WaitingIn(rows: seq<Row>, b: nat, today: int, n: nat): set<nat>
    requires n <= |rows|
  {
    set i: nat | i < n && rows[i].backtest == b && rows[i].metrics.Open? && rows[i].metrics.terms.scheduled > today
  }

  ghost function ClosedIn(rows: seq<Row>, b: nat, today: int, n: nat): set<nat>
    requires n <= |rows|
  {
    set i: nat | i < n && rows[i].backtest == b && rows[i].metrics.Closed? && rows[i].metrics.terms.scheduled <= today
  }

  lemma {:induction false} CountersMean(rows: seq<Row>, b: nat, today: int, n: nat)
    requires n <= |rows|
    ensures DueRows(rows, b, today, n) == |DueIn(rows, b, today, n)|
    ensures SkippedRows(rows, b, today, n) == |WaitingIn(rows, b, today, n)|
    ensures ClosedRows(rows, b, today, n) == |ClosedIn(rows, b, today, n)|
  {
    if n > 0 {
      var row := rows[n - 1];
      CountersMean(rows, b, today, n - 1);
      OneMoreIn(DueIn(rows, b, today, n - 1), DueIn(rows, b, today, n), n - 1,
                row.backtest == b && row.metrics.Open? && row.metrics.terms.scheduled <= today);
      OneMoreIn(WaitingIn(rows, b, today, n - 1), WaitingIn(rows, b, today, n), n - 1,
                row.backtest == b && row.metrics.Open? && row.metrics.terms.scheduled > today);
      OneMoreIn(ClosedIn(rows, b, today, n - 1), ClosedIn(rows, b, today, n), n - 1,
                row.backtest == b && row.metrics.Closed? && row.metrics.terms.scheduled <= today);
    }
  }

  ghost predicate HasDue(rows: seq<Row>, b: nat, today: int) {
    exists k: nat :: k < |rows| && Due(rows[k], b, today)
  }

  ghost predicate Lost(db: Db, t: Db, b: nat) {
    exists k: nat :: |db.lost| <= k < |t.lost| && t.lost[k].backtest == b
  }

  /** A sweep from db to t raised over the backtest: it left a due row open, or lost one of its outcome-log rows. */
  ghost predicate Troubled(db: Db, t: Db, b: nat, today: int) {
    HasDue(t.rows, b, today) || Lost(db, t, b)
  }

  /** The rows a pass over the backtests from b on counts as errored: all that were due in a backtest that raised. */
  ghost function ErroredIn(db: Db, t: Db, b: nat, today: int): set<nat> {
    set i: nat | && i < |db.rows| && db.rows[i].backtest >= b && db.rows[i].metrics.Open?
                 && db.rows[i].metrics.terms.scheduled <= today && Troubled(db, t, db.rows[i].backtest, today)
  }

  ghost function SkippedIn(db: Db, b: nat, today: int): set<nat> {
    set i: nat | i < |db.rows| && db.rows[i].backtest >= b && db.rows[i].metrics.Open? && db.rows[i].metrics.terms.scheduled > today
  }

  /** Those it counts as closed: all rows scheduled by today that are closed, in a backtest that had a due row and did not raise. */
  ghost function CountedIn(db: Db, t: Db, b: nat, today: int): set<nat> {
    set i: nat | && i < |t.rows| && t.rows[i].backtest >= b && t.rows[i].metrics.Closed? && t.rows[i].metrics.terms.scheduled <= today
                 && HasDue(db.rows, t.rows[i].backtest, today) && !Troubled(db, t, t.rows[i].backtest, today)
  }

  /** The outcome-log rows lost on the way are of backtests from b to before `upto` that had a due row. */
  ghost predicate LosesOnly(db: Db, t: Db, b: nat, upto: nat, today: int) {
    && db.lost <= t.lost
    && forall k: nat | |db.lost| <= k < |t.lost| :: b <= t.lost[k].backtest < upto && HasDue(db.rows, t.lost[k].backtest, today)
  }

  lemma {:induction false} MaturedFromLoses(p: Outside, db: Db, b: nat, end: int, i: nat)
    ensures var t := MaturedFrom(p, db, b, end, i).0;
            db.lost <= t.lost && forall k: nat | |db.lost| <= k < |t.lost| :: t.lost[k].backtest == b
    decreases |db.rows| - i
  {
    if i < |db.rows| && !IsOpen(db, b, i) {
      MaturedFromLoses(p, db, b, end, i + 1);
    } else if i < |db.rows| && !MatureRaises(p, db, i, end) {
      MaturedFromLoses(p, Matured(p, db, i, end), b, end, i + 1);
    }
  }

  lemma SweptOneLoses(p: Outside, db: Db, b: nat, today: int)
    requires b < |db.closed|
    ensures LosesOnly(db, SweptOne(p, db, b, today), b, b + 1, today)
  {
    var latest := Latest(db.rows, b, today, |db.rows|);
    LatestMeans(db.rows, b, today, |db.rows|);
    if latest.Some? {
      MaturedFromLoses(p, db, b, latest.value, 0);
    }
  }

  lemma SameDue(db: Db, next: Db, c: nat, today: int)
    requires SameBacktest(db, next, c)
    ensures HasDue(next.rows, c, today) <==> HasDue(db.rows, c, today)
  {
    assert forall k: nat | k < |db.rows| :: Due(next.rows[k], c, today) <==> Due(db.rows[k], c, today);
  }

  lemma {:induction false} SweptLoses(p: Outside, db: Db, b: nat, today: int, left: nat)
    requires Good(db) && b + left <= |db.closed|
    ensures LosesOnly(db, Swept(p, db, b, today, left), b, b + left, today)
    decreases left
  {
    if left > 0 {
      var next := SweptOne(p, db, b, today);
      SweptOneKeeps(p, db, b, today);
      KeepsBacktests(db, next, today);
      SweptOneLoses(p, db, b, today);
      SweptLoses(p, next, b + 1, today, left - 1);
      forall c: nat | c > b
        ensures HasDue(next.rows, c, today) <==> HasDue(db.rows, c, today)
      {
        SameDue(db, next, c, today);
      }
    }
  }

  /** The call on a backtest raised exactly if it left a due row open or lost an outcome-log row. */
  lemma RaisedIsTrouble(p: Outside, db: Db, b: nat, today: int)
    requires Good(db) && b < |db.closed| && Latest(db.rows, b, today, |db.rows|).Some?
    ensures MaturedFrom(p, db, b, Latest(db.rows, b, today, |db.rows|).value, 0).1
            <==> Troubled(db, SweptOne(p, db, b, today), b, today)
  {
    var end := Latest(db.rows, b, today, |db.rows|).value;
    LatestIsShared(db, b, today);
    var (t, raised) := MaturedFrom(p, db, b, end, 0);
    MaturedFromKeeps(p, db, b, end, 0);
    if raised {
      RaisedMeans(p, db, t, b, end, today);
    } else {
      NoneOpen(p, db, t, b, end, today);
      assert forall k: nat | k < |t.rows| && Due(t.rows[k], b, today) :: IsOpen(t, b, k);
    }
  }

  /** A raising backtest got stuck at a row that is still due, or lost an outcome-log row. */
  lemma RaisedMeans(p: Outside, db: Db, t: Db, b: nat, end: int, today: int)
    requires OpenUntil(db, b, end) && end <= today && Maturing(db, t, b, end, 0) && Finished(p, db, t, b, end, 0, true)
    requires t == MaturedFrom(p, db, b, end, 0).0
    ensures Troubled(db, t, b, today)
  {
    MaturedFromLoses(p, db, b, end, 0);
    var k: nat :| StuckAt(p, t, b, end, 0, k) || CutAt(p, db, t, b, 0, k);
    if StuckAt(p, t, b, end, 0, k) {
      assert Advances(db.rows[k], t.rows[k], end) && IsOpen(db, b, k);
      assert Due(t.rows[k], b, today);
    } else {
      assert t.lost[|db.lost|].backtest == b;
    }
  }

  /** How the sweep of backtest b, from db to next, and the rest of the pass, to t, divide the tables. */
  ghost predicate Divides(db: Db, next: Db, t: Db, b: nat, today: int) {
    && |t.rows| == |next.rows| == |db.rows|
    && (forall k | 0 <= k < |db.rows| :: next.rows[k].backtest == db.rows[k].backtest == t.rows[k].backtest)
    && (forall k | 0 <= k < |db.rows| && db.rows[k].backtest != b :: next.rows[k] == db.rows[k])
    && (forall k | 0 <= k < |db.rows| && db.rows[k].backtest == b :: t.rows[k] == next.rows[k])
    && LosesOnly(db, next, b, b + 1, today)
    && next.lost <= t.lost && (forall k: nat | |next.lost| <= k < |t.lost| :: t.lost[k].backtest > b)
  }

  lemma PassDivides(p: Outside, db: Db, b: nat, today: int, left: nat)
    requires Good(db) && b + 1 + left == |db.closed|
    ensures var next := SweptOne(p, db, b, today); Good(next) && Divides(db, next, Swept(p, next, b + 1, today, left), b, today)
  {
    var next := SweptOne(p, db, b, today);
    var t := Swept(p, next, b + 1, today, left);
    SweptOneKeeps(p, db, b, today);
    SweptKeeps(p, next, b + 1, today, left);
    SweptOneLoses(p, db, b, today);
    SweptLoses(p, next, b + 1, today, left);
    StepsDivide(p, db, next, t, b, today, left);
  }

  lemma StepsDivide(p: Outside, db: Db, next: Db, t: Db, b: nat, today: int, left: nat)
    requires Sweeping(db, next, today) && LosesOnly(db, next, b, b + 1, today)
    requires forall k | 0 <= k < |db.rows| && db.rows[k].backtest != b :: next.rows[k] == db.rows[k]
    requires Through(p, next, t, b + 1, today, left) && LosesOnly(next, t, b + 1, b + 1 + left, today)
    ensures Divides(db, next, t, b, today)
  {
    KeepsBacktests(db, next, today);
    KeepsBacktests(next, t, today);
  }

  lemma LostDivides(db: Db, next: Db, t: Db, b: nat, today: int)
    requires Divides(db, next, t, b, today)
    ensures Lost(db, t, b) <==> Lost(db, next, b)
    ensures forall c: nat | c > b :: Lost(db, t, c) <==> Lost(next, t, c)
  {
    if Lost(db, t, b) {
      var k: nat :| |db.lost| <= k < |t.lost| && t.lost[k].backtest == b;
      assert next.lost[k].backtest == b;
    }
    if Lost(db, next, b) {
      var k: nat :| |db.lost| <= k < |next.lost| && next.lost[k].backtest == b;
      assert t.lost[k].backtest == b;
    }
    assert forall k | |db.lost| <= k < |next.lost| :: t.lost[k].backtest == b;
  }

  lemma TroubleDivides(db: Db, next: Db, t: Db, b: nat, today: int)
    requires Divides(db, next, t, b, today)
    ensures Troubled(db, t, b, today) <==> Troubled(db, next, b, today)
    ensures forall c: nat | c > b :: Troubled(db, t, c, today) <==> Troubled(next, t, c, today)
    ensures forall c: nat | c > b :: HasDue(next.rows, c, today) <==> HasDue(db.rows, c, today)
  {
    LostDivides(db, next, t, b, today);
    assert forall k: nat | k < |t.rows| :: Due(t.rows[k], b, today) <==> Due(next.rows[k], b, today);
    forall c: nat | c > b
      ensures HasDue(next.rows, c, today) <==> HasDue(db.rows, c, today)
    {
      assert forall k: nat | k < |db.rows| :: Due(next.rows[k], c, today) <==> Due(db.rows[k], c, today);
    }
  }

  lemma CountersDivide(db: Db, next: Db, t: Db, b: nat, today: int)
    requires Divides(db, next, t, b, today)
    ensures |ErroredIn(db, t, b, today)|
         == |ErroredIn(next, t, b + 1, today)| + if Troubled(db, next, b, today) then |DueIn(db.rows, b, today, |db.rows|)| else 0
    ensures |SkippedIn(db, b, today)| == |SkippedIn(next, b + 1, today)| + |WaitingIn(db.rows, b, today, |db.rows|)|
    ensures |CountedIn(db, t, b, today)|
         == |CountedIn(next, t, b + 1, today)|
            + if HasDue(db.rows, b, today) && !Troubled(db, next, b, today) then |ClosedIn(next.rows, b, today, |db.rows|)| else 0
  {
    TroubleDivides(db, next, t, b, today);
    SizeOfParts(if Troubled(db, next, b, today) then DueIn(db.rows, b, today, |db.rows|) else {},
                ErroredIn(next, t, b + 1, today), ErroredIn(db, t, b, today));
    SizeOfParts(WaitingIn(db.rows, b, today, |db.rows|), SkippedIn(next, b + 1, today), SkippedIn(db, b, today));
    SizeOfParts(if HasDue(db.rows, b, today) && !Troubled(db, next, b, today) then ClosedIn(next.rows, b, today, |db.rows|) else {},
                CountedIn(next, t, b + 1, today), CountedIn(db, t, b, today));
  }

  lemma TallyMeans(p: Outside, db: Db, b: nat, today: int)
    requires Good(db) && b < |db.closed|
    ensures Tallies(TallyOf(p, db, b, today), db, SweptOne(p, db, b, today), b, today)
  {
    CountersMean(db.rows, b, today, |db.rows|);
    CountersMean(SweptOne(p, db, b, today).rows, b, today, |db.rows|);
    LatestMeans(db.rows, b, today, |db.rows|);
    if Latest(db.rows, b, today, |db.rows|).Some? {
      RaisedIsTrouble(p, db, b, today);
    }
  }

  lemma {:induction false} TotalsAre(p: Outside, db: Db, b: nat, today: int, left: nat)
    requires Good(db) && b + left == |db.closed|
    ensures CountsFor(Totals(p, db, b, today, left), db, Swept(p, db, b, today, left), b, today)
    decreases left
  {
    var t := Swept(p, db, b, today, left);
    if left == 0 {
      NothingFromHere(db, t, b, today);
    } else {
      var next := SweptOne(p, db, b, today);
      PassDivides(p, db, b, today, left - 1);
      TallyMeans(p, db, b, today);
      TotalsAre(p, next, b + 1, today, left - 1);
      OneMoreTally(db, next, t, b, today, TallyOf(p, db, b, today), Totals(p, next, b + 1, today, left - 1));
    }
  }

  ghost predicate CountsFor(totals: Tally, db: Db, t: Db, b: nat, today: int) {
    && totals.errored == |ErroredIn(db, t, b, today)| && totals.skipped == |SkippedIn(db, b, today)|
    && totals.closed == |CountedIn(db, t, b, today)|
  }

  /** What the sweep of backtest b, from db to next, adds to the counters. */
  ghost predicate Tallies(tally: Tally, db: Db, next: Db, b: nat, today: int)
    requires |next.rows| == |db.rows|
  {
    && tally.errored == (if Troubled(db, next, b, today) then |DueIn(db.rows, b, today, |db.rows|)| else 0)
    && tally.skipped == |WaitingIn(db.rows, b, today, |db.rows|)|
    && tally.closed == (if HasDue(db.rows, b, today) && !Troubled(db, next, b, today)
                        then |ClosedIn(next.rows, b, today, |db.rows|)| else 0)
  }

  lemma OneMoreTally(db: Db, next: Db, t: Db, b: nat, today: int, tally: Tally, rest: Tally)
    requires Divides(db, next, t, b, today) && Tallies(tally, db, next, b, today) && CountsFor(rest, next, t, b + 1, today)
    ensures CountsFor(tally.Plus(rest), db, t, b, today)
  {
    CountersDivide(db, next, t, b, today);
  }

  lemma NothingFromHere(db: Db, t: Db, b: nat, today: int)
    requires |t.rows| == |db.rows| && forall k | 0 <= k < |db.rows| :: db.rows[k].backtest < b && t.rows[k].backtest < b
    ensures CountsFor(Tally(0, 0, 0), db, t, b, today)
  {
    assert ErroredIn(db, t, b, today) == {} && SkippedIn(db, b, today) == {} && CountedIn(db, t, b, today) == {};
  }

  lemma LossIsErrored(db: Db, t: Db, today: int)
    requires LosesOnly(db, t, 0, |db.closed|, today) && |db.lost| < |t.lost|
    ensures exists i: nat :: i in ErroredIn(db, t, 0, today)
  {
    var c := t.lost[|db.lost|].backtest;
    var i: nat :| i < |db.rows| && Due(db.rows[i], c, today);
    assert Lost(db, t, c) && i in ErroredIn(db, t, 0, today);
  }

  lemma LeftOpenIsErrored(db: Db, t: Db, today: int, i: nat)
    requires Sweeping(db, t, today) && i < |t.rows| && Due(t.rows[i], t.rows[i].backtest, today)
    ensures i in ErroredIn(db, t, 0, today)
  {
    assert SweepsRow(db.rows[i], t.rows[i], today) && HasDue(t.rows, t.rows[i].backtest, today);
  }

  /** No due row is left open and no outcome-log row is lost exactly if no row counts as errored. */
  lemma NoneErrored(db: Db, t: Db, today: int)
    requires Linked(db) && Sweeping(db, t, today) && LosesOnly(db, t, 0, |db.closed|, today)
    ensures ErroredIn(db, t, 0, today) == {} <==>
              && |t.lost| == |db.lost|
              && forall i | 0 <= i < |t.rows| && t.rows[i].metrics.Open? :: t.rows[i].metrics.terms.scheduled > today
  {
    if ErroredIn(db, t, 0, today) == {} {
      if |db.lost| < |t.lost| {
        LossIsErrored(db, t, today);
      }
      forall i | 0 <= i < |t.rows| && t.rows[i].metrics.Open?
        ensures t.rows[i].metrics.terms.scheduled > today
      {
        if t.rows[i].metrics.terms.scheduled <= today {
          LeftOpenIsErrored(db, t, today, i);
        }
      }
    }
  }

  /**
   The counters of a pass over a database the harness built, on the tables before and after it:
   `skipped` counts the open rows not due yet; `errored` all rows that were due in a backtest
   with a due row left open or an outcome-log row lost, and so is zero exactly if there is
   neither; `closed` the closed rows scheduled by today, whenever they were closed, in the
   other backtests that had a due row.
   */
  lemma TotalsMean(told: seq<Outside>, days: seq<int>, ops: seq<Op>, p: Outside, today: int)
    requires |told| == |days| == |ops|
    ensures var db := After(told, days, ops);
            var totals, t := Totals(p, db, 0, today, |db.closed|), Pass(p, db, today);
            && CountsFor(totals, db, t, 0, today)
            && (totals.errored == 0 <==>
                  && |t.lost| == |db.lost|
                  && forall i | 0 <= i < |t.rows| && t.rows[i].metrics.Open? :: t.rows[i].metrics.terms.scheduled > today)
  {
    var db := After(told, days, ops);
    EveryDatabaseIsGood(told, days, ops);
    TotalsAre(p, db, 0, today, |db.closed|);
    SweptKeeps(p, db, 0, today, |db.closed|);
    SweptLoses(p, db, 0, today, |db.closed|);
    NoneErrored(db, Pass(p, db, today), today);
  }

  /**
   A long row over positive closes, with a positive entry price, closes with a drawdown that is
   the worst decline on the way. Its return series compounds to one plus its total return, as
   the two are meant to agree, exactly if the entry price is the first of its closes.
   */
  lemma LongRowAddsUp(p: Outside, row: Row, end: int, closes: seq<real>)
    requires row.metrics.Open? && row.metrics.terms.position == 1 && row.metrics.terms.entryPrice > 0.0
    requires p.prices(row.ticker, row.metrics.terms.entryDate, end) == Ok(closes)
    requires closes != [] && forall c | c in closes :: c > 0.0
    ensures var fate := FateOf(p, row, end);
            fate.Closes? && fate.metrics.Closed?
            && var r := fate.metrics.results;
               && (Equity(r.series, |r.series|) == 1.0 + r.total <==> closes[0] == row.metrics.terms.entryPrice)
               && Solvent(r.series) && NoneWorse(r.series, |r.series|, r.drawdown)
               && -1.0 < r.drawdown <= 0.0 && r.drawdown <= Equity(r.series, |r.series|) - 1.0
  {
    assert forall i | 0 <= i < |closes| :: closes[i] in closes;
    var series := Series(closes, 1);
    assert LongReturns(closes, series);
    LongSeriesAddsUp(closes, series, row.metrics.terms.entryPrice);
  }

  /**
   A launch on a day without a bar takes its entry price from the days before, so its results
   can disagree: half the price is lost without any drawdown.
   */
  lemma EntryBeforeTheWindow(p: Outside)
    requires p.prices("A", 6, 6) == Ok([]) && p.prices("A", 1, 6) == Ok([4.0]) && p.prices("A", 6, 8) == Ok([2.0, 2.0])
    ensures var row := OpenedRow(p, 0, Seed("", "A", Ok(0), "BUY"), 0, 6, 8);
            row.metrics.Open?
            && var fate := FateOf(p, row, 8);
               fate.Closes? && fate.metrics.Closed?
               && fate.metrics.results.total == -0.5 && fate.metrics.results.drawdown == 0.0
  {
    var row := OpenedRow(p, 0, Seed("", "A", Ok(0), "BUY"), 0, 6, 8);
    BuyIsLong();
    HalfLost(p, row);
  }

  lemma HalfLost(p: Outside, row: Row)
    requires row.metrics.Open? && row.metrics.terms.position == 1 && row.metrics.terms.entryPrice == 4.0
    requires p.prices(row.ticker, row.metrics.terms.entryDate, 8) == Ok([2.0, 2.0])
    ensures var fate := FateOf(p, row, 8);
            fate.Closes? && fate.metrics.Closed?
            && fate.metrics.results.total == -0.5 && fate.metrics.results.drawdown == 0.0
  {
    assert Series([2.0, 2.0], 1) == [0.0];
    FlatHasNoDrawdown();
    assert TotalReturn(4.0, 2.0, 1) == Ok(-0.5);
  }

  lemma BuyIsLong()
    ensures PositionOf("BUY") == 1
  {
    var word := "BUY";
    assert "" + word + "" == word && Blank("") && Spells(word, "BUY");
    SaysSpelled(word, "", word, "", "BUY");
  }

  // ----- the harness object -----

  /** What a row closes with; a zero divisor or an entry price that is not positive raises. */
  method Evaluate(p: Outside, terms: Terms, closes: seq<real>, end: int) returns (r: Result<Results>)
    requires closes != []
    ensures r.Ok? <==> Divisible(closes) && terms.entryPrice > 0.0
    ensures r.Ok? ==> var series := Series(closes, terms.position);
                      r.value == ResultsOf(p, terms, closes, series, DrawdownTo(series, |series|), end)
    ensures r.Ok? ==> ReadsOff(r.value, terms, closes, p.prices("SPY", terms.entryDate, end), end)
  {
    var exit := closes[|closes| - 1];
    var series := ComputeReturns(closes, terms.position);
    if series.Raised? {
      return Raised(series.error);
    }
    var (benchmarkExit, benchmarkReturn) := Benchmark(p, terms.entryDate, end);
    var total := TotalReturn(terms.entryPrice, exit, terms.position);
    if total.Raised? {
      return Raised(total.error);
    }
    assert series.value == Series(closes, terms.position);
    var drawdown := MaxDrawdown(series.value);
    ResultsMean(p, terms, closes, end);
    return Ok(Results(end, exit, benchmarkExit, benchmarkReturn, total.value, total.value - benchmarkReturn,
                      series.value, SharpeTerms(series.value), drawdown, WinRate(series.value), end - terms.entryDate));
  }

  class Harness {
    const outside: Outside
    var db: Db

    constructor (outside: Outside, db: Db)
      ensures this.outside == outside && this.db == db
    {
      this.outside, this.db := outside, db;
    }

    /** _mature_one */
    method MatureOne(i: nat, end: int) returns (raised: bool)
      requires i < |db.rows| && db.rows[i].metrics.Open?
      modifies this
      ensures db == Matured(outside, old(db), i, end)
      ensures raised == MatureRaises(outside, old(db), i, end)
      ensures Matures(outside, old(db), db, i, end, raised)
    {
      MaturedMeans(outside, db, i, end);
      var row, terms := db.rows[i], db.rows[i].metrics.terms;
      var bars := outside.prices(row.ticker, terms.entryDate, end);
      if bars.Raised? || bars.value == [] {
        if !outside.written(i) {
          return true;
        }
        db := Write(db, i, Errored(terms));
        return false;
      }
      var closes := bars.value;
      var results := Evaluate(outside, terms, closes, end);
      if results.Raised? || !outside.written(i) {
        return true;
      }
      db := Write(db, i, Closed(terms, results.value));
      raised := !Logs(outside, db, i);
      db := Log(outside, db, i);
    }

    /** _mature_all_open; an exception ends the loop. */
    method MatureAllOpen(b: nat, end: int) returns (raised: bool)
      modifies this
      ensures (db, raised) == MaturedFrom(outside, old(db), b, end, 0)
    {
      var rows := db.rows;
      var i := 0;
      while i < |rows|
        invariant i <= |rows| == |db.rows|
        invariant forall k | i <= k < |rows| :: db.rows[k] == rows[k]
        invariant MaturedFrom(outside, db, b, end, i) == MaturedFrom(outside, old(db), b, end, 0)
      {
        if rows[i].backtest == b && rows[i].metrics.Open? {
          raised := MatureOne(i, end);
          if raised {
            return;
          }
        }
        i := i + 1;
      }
      return false;
    }

    /** _close_backtest: only the parent's status changes, and nothing the harness keeps is lost if no row is open. */
    method CloseBacktest(b: nat)
      requires b < |db.closed|
      modifies this
      ensures |db.closed| == |old(db).closed| && db.closed[b]
      ensures forall c | 0 <= c < |db.closed| && c != b :: db.closed[c] == old(db).closed[c]
      ensures db.rows == old(db).rows && db.log == old(db).log && db.runs == old(db).runs && db.lost == old(db).lost
      ensures Good(old(db)) && !AnyOpen(old(db), b) ==> Good(db)
    {
      ghost var before := db;
      db := db.(closed := db.closed[b := true]);
      if Good(before) && !AnyOpen(before, b) {
        ClosingKeeps(before, b);
      }
    }

    /** One turn of the loop of run_maturation_pass. */
    method SweepBacktest(b: nat, today: int) returns (closed: nat, skipped: nat, errored: nat)
      requires b < |db.closed|
      modifies this
      ensures db == SweptOne(outside, old(db), b, today)
      ensures Tally(closed, skipped, errored) == TallyOf(outside, old(db), b, today)
    {
      closed, skipped, errored := 0, 0, 0;
      var latest: Option<int>, due := None, 0;
      for i := 0 to |db.rows|
        invariant latest == Latest(db.rows, b, today, i) && due == DueRows(db.rows, b, today, i)
        invariant skipped == SkippedRows(db.rows, b, today, i)
      {
        var row := db.rows[i];
        if row.backtest == b && row.metrics.Open? {
          if row.metrics.terms.scheduled > today {
            skipped := skipped + 1;
          } else {
            due := due + 1;
            if latest.None? || latest.value < row.metrics.terms.scheduled {
              latest := Some(row.metrics.terms.scheduled);
            }
          }
        }
      }
      if latest.None? {
        return;
      }
      var raised := MatureAllOpen(b, latest.value);
      if raised {
        errored := due;
        return;
      }
      var anyOpen := false;
      for i := 0 to |db.rows|
        invariant closed == ClosedRows(db.rows, b, today, i)
        invariant anyOpen <==> exists k: nat | k < i :: IsOpen(db, b, k)
      {
        var row := db.rows[i];
        if CountsAsClosed(row, b, today) {
          closed := closed + 1;
        }
        if row.backtest == b && row.metrics.Open? {
          assert IsOpen(db, b, i);
          anyOpen := true;
        }
      }
      if !anyOpen {
        CloseBacktest(b);
      }
    }

    /** run_maturation_pass */
    method RunMaturationPass(today: int) returns (closed: nat, skipped: nat, errored: nat)
      modifies this
      ensures db == Pass(outside, old(db), today)
      ensures Tally(closed, skipped, errored) == Totals(outside, old(db), 0, today, |old(db).closed|)
    {
      closed, skipped, errored := 0, 0, 0;
      var b, n := 0, |db.closed|;
      while b < n
        invariant b <= n == |db.closed|
        invariant Swept(outside, db, b, today, n - b) == Pass(outside, old(db), today)
        invariant Tally(closed, skipped, errored).Plus(Totals(outside, db, b, today, n - b))
               == Totals(outside, old(db), 0, today, n)
      {
        var c, k, e := SweepBacktest(b, today);
        closed, skipped, errored := closed + c, skipped + k, errored + e;
        b := b + 1;
      }
    }

    /** run_watchlist over the runs of its tickers and personas, in order; a failing graph run ends the call. */
    method RunWatchlist(seeds: seq<Seed>, start: int, end: int, today: int) returns (raised: bool)
      modifies this
      ensures db == Launched(outside, old(db), seeds, start, end, today)
      ensures (forall r | r in old(db).rows :: r.backtest < |old(db).closed|) ==>
                Begun(outside, old(db).rows, db.rows, |old(db).closed|, seeds, start, end)
      ensures raised == LaunchRaises(outside, old(db), seeds, start, end, today)
      ensures Good(old(db)) ==> MaturesAtOnce(old(db), db, end, today, raised)
    {
      if Good(db) {
        LaunchMatures(outside, db, seeds, start, end, today);
      }
      if forall r | r in db.rows :: r.backtest < |db.closed| {
        LaunchBegins(outside, db, seeds, start, end, today);
      }
      var b := |db.closed|;
      db := db.(closed := db.closed + [false]);
      ghost var empty := db;
      var rest := seeds;
      while rest != []
        invariant |db.closed| == b + 1
        invariant OpenedFrom(outside, db, b, rest, start, end) == OpenedFrom(outside, empty, b, seeds, start, end)
        decreases |rest|
      {
        if rest[0].graph.Raised? {
          return true;
        }
        var run := rest[0].graph.value;
        db := db.(runs := db.runs + {run}, rows := db.rows + [OpenedRow(outside, b, rest[0], run, start, end)]);
        rest := rest[1..];
      }
      raised := false;
      if end <= today {
        raised := MatureAllOpen(b, end);
        if !raised {
          CloseBacktest(b);
        }
      }
    }

    /** run_brief_scoped: a run id without a runs row raises before anything is written. */
    method RunBriefScoped(seeds: seq<Seed>, entry: int, window: int, today: int) returns (raised: bool)
      modifies this
      ensures (exists k | 0 <= k < |seeds| :: seeds[k].graph.Raised?) ==> raised && db == old(db)
      ensures (forall k | 0 <= k < |seeds| :: seeds[k].graph.Ok?) ==>
                && db == Launched(outside, old(db), seeds, entry, entry + window, today)
                && raised == LaunchRaises(outside, old(db), seeds, entry, entry + window, today)
                && (Good(old(db)) ==> MaturesAtOnce(old(db), db, entry + window, today, raised))
    {
      for i := 0 to |seeds|
        invariant forall k | 0 <= k < i :: seeds[k].graph.Ok?
      {
        if seeds[i].graph.Raised? {
          return true;
        }
      }
      raised := RunWatchlist(seeds, entry, entry + window, today);
    }
  }
}
