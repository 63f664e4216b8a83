/**
 The promoter with the approval gate on: the candidate query and its grouping
 (tradingagents/orchestrator/candidates.py), one poll cycle (promoter.py), and what
 composing a light alert stores (tradingagents/secretary/service.py).
 */
module Promoter {
  import opened Basics
  import opened Outcomes

  // ----- time: seconds, with a fixed offset of local time -----

  function Day(offset: int, t: int): int {
    (t + offset) / 86400
  }

  /** The first moment of the next local day. */
  function NextMidnight(offset: int, t: int): int {
    (Day(offset, t) + 1) * 86400 - offset
  }

  lemma AfterMidnight(offset: int, t: int, u: int)
    requires NextMidnight(offset, t) <= u
    ensures Day(offset, t) < Day(offset, u)
  {
  }

  lemma MidnightsInOrder(offset: int, t: int, u: int)
    requires t <= u
    ensures Day(offset, t) <= Day(offset, u) && NextMidnight(offset, t) <= NextMidnight(offset, u)
    ensures u < NextMidnight(offset, u)
  {
  }

  /** A local midnight, the next one after the time. */
  lemma NextMidnightMeans(offset: int, t: int)
    ensures (NextMidnight(offset, t) + offset) % 86400 == 0 && t < NextMidnight(offset, t) <= t + 86400
    ensures Day(offset, NextMidnight(offset, t)) == Day(offset, t) + 1
  {
  }

  // ----- the candidate query -----

  datatype Event = Event(status: string, salience: Option<real>, ingested: int, mentions: map<string, Option<real>>)

  datatype Tables = Tables(events: map<nat, Event>, watchlist: set<string>, enqueued: set<nat>)

  datatype Row = Row(event: nat, ticker: string, ingested: int)

  predicate AtLeast(x: Option<real>, threshold: real) {
    x.Some? && x.value >= threshold
  }

  /** A suppression counts while it lies in the future. */
  predicate Suppressed(until: map<string, int>, ticker: string, now: int) {
    ticker in until && until[ticker] > now
  }

  predicate Candidate(tb: Tables, until: map<string, int>, now: int, salience: real, confidence: real, r: Row) {
    && r.event in tb.events
    && r.event !in tb.enqueued
    && var e := tb.events[r.event];
       && e.status == "triaged" && e.ingested == r.ingested && AtLeast(e.salience, salience)
       && r.ticker in e.mentions && AtLeast(e.mentions[r.ticker], confidence)
       && r.ticker in tb.watchlist && !Suppressed(until, r.ticker, now)
  }

  /** The query's answer: the oldest candidates, at most `limit` of them, ties in any order. */
  ghost predicate Fetched(tb: Tables, until: map<string, int>, now: int, salience: real, confidence: real, limit: nat,
                          rows: seq<Row>) {
    && |rows| <= limit && NoRepeats(rows)
    && (forall r | r in rows :: Candidate(tb, until, now, salience, confidence, r))
    && (forall i, j | 0 <= i < j < |rows| :: rows[i].ingested <= rows[j].ingested)
    && (forall r | Candidate(tb, until, now, salience, confidence, r) && r !in rows ::
          |rows| == limit && forall s | s in rows :: s.ingested <= r.ingested)
  }

  /** A triaged event of no job, scored and linked to a watched ticker at the thresholds or above; its suppression is over. */
  ghost predicate Qualifies(tb: Tables, until: map<string, int>, now: int, salience: real, confidence: real, event: nat, ticker: string) {
    && event in tb.events && event !in tb.enqueued && ticker in tb.watchlist && (ticker in until ==> until[ticker] <= now)
    && var e := tb.events[event];
       && e.status == "triaged" && e.salience.Some? && e.salience.value >= salience
       && ticker in e.mentions && e.mentions[ticker].Some? && e.mentions[ticker].value >= confidence
  }

  /** The fetched rows qualify and are the oldest that do: a row that does but is left out means a full batch of older ones. */
  lemma FetchedQualify(tb: Tables, until: map<string, int>, now: int, salience: real, confidence: real, limit: nat, rows: seq<Row>)
    requires Fetched(tb, until, now, salience, confidence, limit, rows)
    ensures |rows| <= limit && forall i, j | 0 <= i < j < |rows| :: rows[i].ingested <= rows[j].ingested
    ensures forall r | r in rows ::
              Qualifies(tb, until, now, salience, confidence, r.event, r.ticker) && r.ingested == tb.events[r.event].ingested
    ensures forall event, ticker | Qualifies(tb, until, now, salience, confidence, event, ticker) ::
              || Row(event, ticker, tb.events[event].ingested) in rows
              || (|rows| == limit && forall r | r in rows :: r.ingested <= tb.events[event].ingested)
  {
  }

  /** Raising a threshold adds no candidate, and takes out exactly those that now lie below one. */
  lemma HigherThresholds(tb: Tables, until: map<string, int>, now: int, salience: real, confidence: real,
                         higher: real, surer: real, r: Row)
    requires salience <= higher && confidence <= surer
    ensures Candidate(tb, until, now, higher, surer, r) ==> Candidate(tb, until, now, salience, confidence, r)
    ensures Candidate(tb, until, now, salience, confidence, r) ==>
              (Candidate(tb, until, now, higher, surer, r) <==>
                 tb.events[r.event].salience.value >= higher && tb.events[r.event].mentions[r.ticker].value >= surer)
  {
  }

  // ----- grouping -----

  datatype Group = Group(event: nat, ingested: int, tickers: seq<string>)

  /** The row's event already has a group, or gets one at the end. */
  function AddRow(groups: seq<Group>, r: Row): seq<Group> {
    if groups == [] then [Group(r.event, r.ingested, [r.ticker])]
    else if groups[0].event == r.event then [groups[0].(tickers := groups[0].tickers + [r.ticker])] + groups[1..]
    else [groups[0]] + AddRow(groups[1..], r)
  }

  function Grouped(rows: seq<Row>): seq<Group> {
    if rows == [] then [] else AddRow(Grouped(rows[..|rows| - 1]), rows[|rows| - 1])
  }

  function TickersIn(groups: seq<Group>, event: nat): seq<string> {
    if groups == [] then [] else (if groups[0].event == event then groups[0].tickers else []) + TickersIn(groups[1..], event)
  }

  function TickersOf(rows: seq<Row>, event: nat): seq<string> {
    if rows == [] then []
    else TickersOf(rows[..|rows| - 1], event) + if rows[|rows| - 1].event == event then [rows[|rows| - 1].ticker] else []
  }

  function EventsOf(groups: seq<Group>): set<nat> {
    if groups == [] then {} else {groups[0].event} + EventsOf(groups[1..])
  }

  /** No event has two groups. */
  predicate OneEach(groups: seq<Group>) {
    groups == [] || (groups[0].event !in EventsOf(groups[1..]) && OneEach(groups[1..]))
  }

  lemma {:induction false} NotIn(groups: seq<Group>, event: nat)
    requires event !in EventsOf(groups)
    ensures TickersIn(groups, event) == []
  {
    if groups != [] {
      NotIn(groups[1..], event);
    }
  }

  lemma {:induction false} AddRowKeeps(groups: seq<Group>, r: Row, event: nat)
    requires OneEach(groups)
    ensures OneEach(AddRow(groups, r)) && EventsOf(AddRow(groups, r)) == EventsOf(groups) + {r.event}
    ensures TickersIn(AddRow(groups, r), event) == TickersIn(groups, event) + if r.event == event then [r.ticker] else []
  {
    var after := AddRow(groups, r);
    if groups == [] {
      assert after[1..] == [];
    } else if groups[0].event == r.event {
      assert after[1..] == groups[1..];
      NotIn(groups[1..], r.event);
    } else {
      assert after[1..] == AddRow(groups[1..], r);
      AddRowKeeps(groups[1..], r, event);
    }
  }

  /** Grouping loses nothing: one group an event, with the event's tickers in the order of the rows. */
  lemma {:induction false} GroupingConserves(rows: seq<Row>, event: nat)
    ensures OneEach(Grouped(rows))
    ensures TickersIn(Grouped(rows), event) == TickersOf(rows, event)
  {
    if rows != [] {
      GroupingConserves(rows[..|rows| - 1], event);
      AddRowKeeps(Grouped(rows[..|rows| - 1]), rows[|rows| - 1], event);
    }
  }

  lemma {:induction false} AddRowAt(groups: seq<Group>, r: Row, k: nat)
    requires k < |groups| && groups[k].event == r.event && OneEach(groups)
    ensures AddRow(groups, r) == groups[k := groups[k].(tickers := groups[k].tickers + [r.ticker])]
  {
    if k > 0 {
      EventAt(groups[1..], k - 1);
      AddRowAt(groups[1..], r, k - 1);
    }
  }

  lemma {:induction false} EventAt(groups: seq<Group>, k: nat)
    requires k < |groups|
    ensures groups[k].event in EventsOf(groups)
  {
    if k > 0 {
      EventAt(groups[1..], k - 1);
    }
  }

  lemma {:induction false} AddRowNew(groups: seq<Group>, r: Row)
    requires r.event !in EventsOf(groups)
    ensures AddRow(groups, r) == groups + [Group(r.event, r.ingested, [r.ticker])]
  {
    if groups != [] {
      AddRowNew(groups[1..], r);
    }
  }

  /** The dictionary knows each event's group. */
  ghost predicate Placed(groups: seq<Group>, place: map<nat, nat>) {
    place.Keys == EventsOf(groups) && forall e | e in place :: place[e] < |groups| && groups[place[e]].event == e
  }

  lemma GroupedOneMore(rows: seq<Row>, i: nat)
    requires i < |rows|
    ensures Grouped(rows[..i + 1]) == AddRow(Grouped(rows[..i]), rows[i])
  {
    assert rows[..i + 1][..i] == rows[..i];
  }

  lemma PlaceExtends(groups: seq<Group>, place: map<nat, nat>, r: Row)
    requires OneEach(groups) && Placed(groups, place) && r.event !in place
    ensures Placed(AddRow(groups, r), place[r.event := |groups|])
  {
    AddRowNew(groups, r);
    AddRowKeeps(groups, r, r.event);
  }

  lemma PlaceStays(groups: seq<Group>, place: map<nat, nat>, r: Row)
    requires OneEach(groups) && Placed(groups, place) && r.event in place
    ensures Placed(AddRow(groups, r), place)
  {
    AddRowAt(groups, r, place[r.event]);
    AddRowKeeps(groups, r, r.event);
  }

  /** The loop of fetch_candidates_grouped; `place` is its dictionary, in insertion order. */
  method GroupRows(rows: seq<Row>) returns (groups: seq<Group>)
    ensures groups == Grouped(rows)
  {
    groups := [];
    var place: map<nat, nat> := map[];
    for i := 0 to |rows|
      invariant groups == Grouped(rows[..i]) && OneEach(groups) && Placed(groups, place)
    {
      var r := rows[i];
      GroupedOneMore(rows, i);
      AddRowKeeps(groups, r, r.event);
      if r.event in place {
        var k := place[r.event];
        PlaceStays(groups, place, r);
        AddRowAt(groups, r, k);
        groups := groups[k := groups[k].(tickers := groups[k].tickers + [r.ticker])];
      } else {
        PlaceExtends(groups, place, r);
        AddRowNew(groups, r);
        place := place[r.event := |groups|];
        groups := groups + [Group(r.event, r.ingested, [r.ticker])];
      }
    }
    assert rows[..|rows|] == rows;
  }

  // ----- composing a light alert -----

  /**
   A stored light alert: its brief's generation time, the local time its suppressions were
   computed from, and the poll it was composed in. `broken` is None if compose went
   through, and otherwise how many of its commits were made before it stopped: for each
   ticker a pending action, then a suppression.
   */
  datatype Alert = Alert(event: nat, tickers: seq<string>, gen: int, local: int, broken: Option<nat>, poll: nat)

  datatype Evaluation = Evaluation(event: nat, tickers: seq<string>, passed: bool)

  /** The stored state: suppressions, light alerts with their pending study actions, evaluations; and the polls so far. */
  datatype World = World(until: map<string, int>, alerts: seq<Alert>, actions: seq<(nat, string)>,
                         evaluations: seq<Evaluation>, polls: nat)

  const EMPTY := World(map[], [], [], [], 0)

  /** What the outside does when a group is handled. */
  datatype Answer =
    | EvaluatorRaises
    | Rejects
    | ComposeFails                              // before its first write
    | Breaks(gen: int, local: int, upto: nat)   // after the brief and `upto` commits for its tickers
    | Composes(gen: int, local: int)

  /** The answer leaves a stored alert. */
  predicate Stores(answer: Answer) {
    answer.Breaks? || answer.Composes?
  }

  function AlertOf(w: World, event: nat, tickers: seq<string>, answer: Answer): Alert
    requires Stores(answer)
  {
    Alert(event, tickers, answer.gen, answer.local, if answer.Breaks? then Some(answer.upto) else None, w.polls)
  }

  function Commits(a: Alert): nat {
    if a.broken.None? then 2 * |a.tickers| else a.broken.value
  }

  function Upto(tickers: seq<string>, n: nat): seq<string> {
    tickers[..Min(n, |tickers|)]
  }

  /** The tickers for which a pending action was written. */
  function Asked(a: Alert): seq<string> {
    Upto(a.tickers, (Commits(a) + 1) / 2)
  }

  /** The tickers for which a suppression was written too: all of those, or all but the last. */
  function Muted(a: Alert): seq<string> {
    Upto(a.tickers, Commits(a) / 2)
  }

  /** The per-ticker commits, as many as are made: a pending study action on the alert, then a suppression. */
  function Written(w: World, alert: nat, tickers: seq<string>, commits: nat, midnight: int): World
    decreases tickers
  {
    if tickers == [] || commits == 0 then w
    else
      var asked := w.(actions := w.actions + [(alert, tickers[0])]);
      if commits == 1 then asked
      else Written(asked.(until := asked.until[tickers[0] := midnight]), alert, tickers[1..], commits - 2, midnight)
  }

  /** Everything compose_event_alert_light stores for the alert, as far as it gets. */
  function Composed(offset: int, w: World, a: Alert): World {
    Written(w.(alerts := w.alerts + [a]), |w.alerts|, a.tickers, Commits(a), NextMidnight(offset, a.local))
  }

  function Fresh(tickers: seq<string>, seen: set<string>): seq<string> {
    if tickers == [] then []
    else (if tickers[0] in seen then [] else [tickers[0]]) + Fresh(tickers[1..], seen)
  }

  function Elements(tickers: seq<string>): set<string> {
    set t | t in tickers
  }

  // ----- one poll cycle -----

  function Evaluated(w: World, event: nat, tickers: seq<string>, passed: bool): World {
    w.(evaluations := w.evaluations + [Evaluation(event, tickers, passed)])
  }

  /** The evaluation of a group that the evaluator answers, and its alert if compose stores one. */
  function Handled(offset: int, w: World, event: nat, tickers: seq<string>, answer: Answer): World {
    var tested := Evaluated(w, event, tickers, !answer.Rejects?);
    if Stores(answer) then Composed(offset, tested, AlertOf(tested, event, tickers, answer)) else tested
  }

  function SeenAfter(seen: set<string>, tickers: seq<string>, answer: Answer): set<string> {
    if answer.Composes? then seen + Elements(tickers) else seen
  }

  /** The loop of run_once over the groups; an evaluator that raises ends the cycle. */
  function Cycle(offset: int, w: World, groups: seq<Group>, answers: seq<Answer>, seen: set<string>): World
    requires |answers| == |groups|
    decreases groups
  {
    if groups == [] then w
    else
      var event, unseen := groups[0].event, Fresh(groups[0].tickers, seen);
      if unseen == [] then Cycle(offset, w, groups[1..], answers[1..], seen)
      else if answers[0].EvaluatorRaises? then w
      else Cycle(offset, Handled(offset, w, event, unseen, answers[0]), groups[1..], answers[1..],
                 SeenAfter(seen, unseen, answers[0]))
  }

  /** The evaluator raises over a group the cycle gets to. */
  predicate CycleRaises(groups: seq<Group>, answers: seq<Answer>, seen: set<string>)
    requires |answers| == |groups|
    decreases groups
  {
    if groups == [] then false
    else
      var unseen := Fresh(groups[0].tickers, seen);
      if unseen == [] then CycleRaises(groups[1..], answers[1..], seen)
      else answers[0].EvaluatorRaises? || CycleRaises(groups[1..], answers[1..], SeenAfter(seen, unseen, answers[0]))
  }

  // ----- what a cycle puts on record -----

  /**
   The record of a cycle over groups[i..]: the places of the groups it evaluated, their
   evaluations, and its alerts with the places of their evaluations.
   */
  datatype Record = Record(at: seq<nat>, tested: seq<Evaluation>, origin: seq<nat>, alerts: seq<Alert>)

  ghost predicate Increasing(s: seq<nat>) {
    forall j, k | 0 <= j < k < |s| :: s[j] < s[k]
  }

  /** Before group m the ticker was alerted in this cycle, or seen before it. */
  ghost predicate Known(answers: seq<Answer>, seen: set<string>, at: seq<nat>, tested: seq<Evaluation>, m: int, t: string)
    requires |tested| == |at|
  {
    t in seen || exists j :: 0 <= j < |at| && at[j] < m && at[j] < |answers| && answers[at[j]].Composes? && t in tested[j].tickers
  }

  ghost predicate HasUnknown(groups: seq<Group>, answers: seq<Answer>, seen: set<string>, at: seq<nat>, tested: seq<Evaluation>, m: int)
    requires |tested| == |at| && 0 <= m < |groups|
  {
    exists t :: t in groups[m].tickers && !Known(answers, seen, at, tested, m, t)
  }

  /** The evaluator raises over group m, which ends the cycle. */
  ghost predicate Halts(groups: seq<Group>, answers: seq<Answer>, seen: set<string>, at: seq<nat>, tested: seq<Evaluation>, m: int)
    requires |tested| == |at| && 0 <= m < |groups| == |answers|
  {
    answers[m].EvaluatorRaises? && HasUnknown(groups, answers, seen, at, tested, m)
  }

  ghost predicate NoneHalts(groups: seq<Group>, answers: seq<Answer>, i: nat, seen: set<string>, at: seq<nat>, tested: seq<Evaluation>)
    requires |tested| == |at| && |answers| == |groups|
  {
    forall m | i <= m < |groups| :: !Halts(groups, answers, seen, at, tested, m)
  }

  /** The evaluation of group g: its event, its tickers but those alerted before it, and the evaluator's verdict. */
  ghost predicate TestedAs(groups: seq<Group>, answers: seq<Answer>, seen: set<string>, at: seq<nat>, tested: seq<Evaluation>, k: int)
    requires 0 <= k < |at| == |tested| && at[k] < |groups| == |answers|
  {
    && tested[k].event == groups[at[k]].event && tested[k].passed == (answers[at[k]] != Rejects)
    && forall t :: t in tested[k].tickers <==> t in groups[at[k]].tickers && !Known(answers, seen, at, tested, at[k], t)
  }

  /** Exactly the groups with a ticker not alerted before are evaluated, in order, up to one over which the evaluator raises. */
  ghost predicate Tests(groups: seq<Group>, answers: seq<Answer>, i: nat, seen: set<string>, at: seq<nat>, tested: seq<Evaluation>) {
    && |tested| == |at| && |answers| == |groups| && Increasing(at)
    && (forall k | 0 <= k < |at| :: i <= at[k] < |groups|)
    && (forall m: nat | i <= m < |groups| :: m in at <==>
          && HasUnknown(groups, answers, seen, at, tested, m)
          && forall h | i <= h <= m :: !Halts(groups, answers, seen, at, tested, h))
    && forall k | 0 <= k < |at| :: TestedAs(groups, answers, seen, at, tested, k)
  }

  ghost predicate ComesOf(a: Alert, e: Evaluation, answer: Answer, polls: nat) {
    && (answer.Composes? || answer.Breaks?)
    && a == Alert(e.event, e.tickers, answer.gen, answer.local, if answer.Breaks? then Some(answer.upto) else None, polls)
  }

  /** Each alert comes of an evaluation, with its event and tickers, and of the answer of its group. */
  ghost predicate Alerts(answers: seq<Answer>, at: seq<nat>, tested: seq<Evaluation>, origin: seq<nat>, alerts: seq<Alert>, polls: nat) {
    && |alerts| == |origin| && |tested| == |at| && Increasing(origin)
    && (forall k | 0 <= k < |at| :: at[k] < |answers|) && (forall n | 0 <= n < |origin| :: origin[n] < |at|)
    && (forall k :: k in origin <==> 0 <= k < |at| && (answers[at[k]].Composes? || answers[at[k]].Breaks?))
    && forall n | 0 <= n < |origin| :: ComesOf(alerts[n], tested[origin[n]], answers[at[origin[n]]], polls)
  }

  /** What a cycle over groups[i..] adds to the tables. */
  ghost predicate Records(w: World, v: World, groups: seq<Group>, answers: seq<Answer>, i: nat, seen: set<string>, r: Record) {
    && v.evaluations == w.evaluations + r.tested && v.alerts == w.alerts + r.alerts && v.polls == w.polls
    && Tests(groups, answers, i, seen, r.at, r.tested) && Alerts(answers, r.at, r.tested, r.origin, r.alerts, w.polls)
  }

  /** The group at i has nothing new, so the record is that of the others. */
  lemma TestsSkip(groups: seq<Group>, answers: seq<Answer>, i: nat, seen: set<string>, at: seq<nat>, tested: seq<Evaluation>)
    requires i < |groups| && (forall t | t in groups[i].tickers :: t in seen) && Tests(groups, answers, i + 1, seen, at, tested)
    ensures Tests(groups, answers, i, seen, at, tested)
  {
    assert !HasUnknown(groups, answers, seen, at, tested, i);
  }

  lemma TestsHalt(groups: seq<Group>, answers: seq<Answer>, i: nat, seen: set<string>)
    requires i < |groups| == |answers| && answers[i].EvaluatorRaises? && exists t :: t in groups[i].tickers && t !in seen
    ensures Tests(groups, answers, i, seen, [], []) && !NoneHalts(groups, answers, i, seen, [], [])
  {
    assert Halts(groups, answers, seen, [], [], i);
  }

  /** One group more in front: what is known at a later group is what was, with its tickers if it was composed. */
  lemma KnownOneMore(answers: seq<Answer>, i: nat, seen: set<string>, at: seq<nat>, tested: seq<Evaluation>, e: Evaluation, m: int, t: string)
    requires |tested| == |at| && i < |answers| && m > i
    ensures Known(answers, seen, [i] + at, [e] + tested, m, t)
       <==> Known(answers, if answers[i].Composes? then seen + Elements(e.tickers) else seen, at, tested, m, t)
  {
    var later := if answers[i].Composes? then seen + Elements(e.tickers) else seen;
    if Known(answers, seen, [i] + at, [e] + tested, m, t) && t !in seen {
      var j :| 0 <= j < |[i] + at| && ([i] + at)[j] < m && ([i] + at)[j] < |answers| && answers[([i] + at)[j]].Composes?
               && t in ([e] + tested)[j].tickers;
      assert j > 0 ==> at[j - 1] == ([i] + at)[j] && tested[j - 1] == ([e] + tested)[j];
    }
    if Known(answers, later, at, tested, m, t) && t !in later {
      var j :| 0 <= j < |at| && at[j] < m && at[j] < |answers| && answers[at[j]].Composes? && t in tested[j].tickers;
      assert ([i] + at)[j + 1] == at[j] && ([e] + tested)[j + 1] == tested[j];
    }
    if Known(answers, later, at, tested, m, t) && t in later && t !in seen {
      assert ([i] + at)[0] == i && ([e] + tested)[0] == e;
    }
  }

  lemma PlacesOneMore(at: seq<nat>, i: nat, n: nat)
    requires Increasing(at) && i < n && forall k | 0 <= k < |at| :: i < at[k] < n
    ensures var more := [i] + at;
            && Increasing(more) && (forall k | 0 < k < |more| :: more[k] == at[k - 1])
            && (forall k | 0 <= k < |more| :: i <= more[k] < n) && (forall m :: m in more <==> m == i || m in at)
  {
  }

  lemma KnownFirst(answers: seq<Answer>, seen: set<string>, at: seq<nat>, tested: seq<Evaluation>, m: int, t: string)
    requires |tested| == |at| && forall k | 0 <= k < |at| :: at[k] >= m
    ensures Known(answers, seen, at, tested, m, t) <==> t in seen
  {
  }

  /** With group i in front, known at a later group is what was known there after it. */
  ghost predicate SameKnown(answers: seq<Answer>, i: nat, seen: set<string>, later: set<string>, at: seq<nat>, tested: seq<Evaluation>,
                            e: Evaluation)
    requires |tested| == |at|
  {
    && (forall m, t | m > i :: Known(answers, seen, [i] + at, [e] + tested, m, t) <==> Known(answers, later, at, tested, m, t))
    && (forall t :: Known(answers, seen, [i] + at, [e] + tested, i, t) <==> t in seen)
  }

  lemma ChosenOneMore(groups: seq<Group>, answers: seq<Answer>, i: nat, seen: set<string>, later: set<string>, at: seq<nat>,
                      tested: seq<Evaluation>, e: Evaluation, m: nat)
    requires |tested| == |at| && SameKnown(answers, i, seen, later, at, tested, e) && i <= m < |groups| == |answers|
    requires !answers[i].EvaluatorRaises?
    ensures m > i ==> (HasUnknown(groups, answers, seen, [i] + at, [e] + tested, m) <==> HasUnknown(groups, answers, later, at, tested, m))
    ensures (forall h | i <= h <= m :: !Halts(groups, answers, seen, [i] + at, [e] + tested, h))
       <==> (forall h | i < h <= m :: !Halts(groups, answers, later, at, tested, h))
  {
    forall h | i < h <= m
      ensures HasUnknown(groups, answers, seen, [i] + at, [e] + tested, h) <==> HasUnknown(groups, answers, later, at, tested, h)
      ensures Halts(groups, answers, seen, [i] + at, [e] + tested, h) <==> Halts(groups, answers, later, at, tested, h)
    {
    }
    assert !Halts(groups, answers, seen, [i] + at, [e] + tested, i);
  }

  lemma TestedOneMore(groups: seq<Group>, answers: seq<Answer>, i: nat, seen: set<string>, later: set<string>, at: seq<nat>,
                      tested: seq<Evaluation>, e: Evaluation, k: nat)
    requires |tested| == |at| && SameKnown(answers, i, seen, later, at, tested, e) && i < |groups| == |answers|
    requires e.event == groups[i].event && e.passed == (answers[i] != Rejects)
    requires forall t :: t in e.tickers <==> t in groups[i].tickers && t !in seen
    requires k <= |at| && (k > 0 ==> i < at[k - 1] < |groups| && TestedAs(groups, answers, later, at, tested, k - 1))
    ensures ([i] + at)[k] < |groups| && TestedAs(groups, answers, seen, [i] + at, [e] + tested, k)
  {
    assert k > 0 ==> ([i] + at)[k] == at[k - 1] && ([e] + tested)[k] == tested[k - 1];
  }

  lemma TestsOneMore(groups: seq<Group>, answers: seq<Answer>, i: nat, seen: set<string>, at: seq<nat>, tested: seq<Evaluation>,
                     e: Evaluation)
    requires i < |groups| == |answers| && !answers[i].EvaluatorRaises?
    requires e.event == groups[i].event && e.passed == (answers[i] != Rejects) && e.tickers != []
    requires forall t :: t in e.tickers <==> t in groups[i].tickers && t !in seen
    requires Tests(groups, answers, i + 1, if answers[i].Composes? then seen + Elements(e.tickers) else seen, at, tested)
    ensures Tests(groups, answers, i, seen, [i] + at, [e] + tested)
  {
    var later := if answers[i].Composes? then seen + Elements(e.tickers) else seen;
    PlacesOneMore(at, i, |groups|);
    KnowsOneMore(answers, i, seen, at, tested, e);
    forall m: nat | i <= m < |groups|
      ensures m in [i] + at <==>
                && HasUnknown(groups, answers, seen, [i] + at, [e] + tested, m)
                && forall h | i <= h <= m :: !Halts(groups, answers, seen, [i] + at, [e] + tested, h)
    {
      ChosenOneMore(groups, answers, i, seen, later, at, tested, e, m);
      assert e.tickers[0] in e.tickers;
    }
    forall k | 0 <= k < |[i] + at|
      ensures TestedAs(groups, answers, seen, [i] + at, [e] + tested, k)
    {
      TestedOneMore(groups, answers, i, seen, later, at, tested, e, k);
    }
  }

  lemma KnowsOneMore(answers: seq<Answer>, i: nat, seen: set<string>, at: seq<nat>, tested: seq<Evaluation>, e: Evaluation)
    requires |tested| == |at| && i < |answers| && forall k | 0 <= k < |at| :: at[k] > i
    ensures SameKnown(answers, i, seen, if answers[i].Composes? then seen + Elements(e.tickers) else seen, at, tested, e)
  {
    forall m, t | m > i
      ensures Known(answers, seen, [i] + at, [e] + tested, m, t)
         <==> Known(answers, if answers[i].Composes? then seen + Elements(e.tickers) else seen, at, tested, m, t)
    {
      KnownOneMore(answers, i, seen, at, tested, e, m, t);
    }
    forall t
      ensures Known(answers, seen, [i] + at, [e] + tested, i, t) <==> t in seen
    {
      KnownFirst(answers, seen, [i] + at, [e] + tested, i, t);
    }
  }

  lemma HaltsOneMore(groups: seq<Group>, answers: seq<Answer>, i: nat, seen: set<string>, at: seq<nat>, tested: seq<Evaluation>,
                     e: Evaluation)
    requires |tested| == |at| && i < |groups| == |answers| && !answers[i].EvaluatorRaises? && forall k | 0 <= k < |at| :: at[k] > i
    ensures NoneHalts(groups, answers, i, seen, [i] + at, [e] + tested) <==>
              NoneHalts(groups, answers, i + 1, if answers[i].Composes? then seen + Elements(e.tickers) else seen, at, tested)
  {
    KnowsOneMore(answers, i, seen, at, tested, e);
    ChosenOneMore(groups, answers, i, seen, if answers[i].Composes? then seen + Elements(e.tickers) else seen, at, tested, e,
                  |groups| - 1);
  }

  lemma RecordOneMore(w: World, next: World, v: World, groups: seq<Group>, answers: seq<Answer>, i: nat, seen: set<string>,
                      e: Evaluation, stored: bool, a: Alert, rest: Record) returns (r: Record)
    requires i < |groups| == |answers| && !answers[i].EvaluatorRaises?
    requires next.evaluations == w.evaluations + [e] && next.polls == w.polls
    requires next.alerts == w.alerts + if stored then [a] else []
    requires e.event == groups[i].event && e.passed == (answers[i] != Rejects) && e.tickers != []
    requires forall t :: t in e.tickers <==> t in groups[i].tickers && t !in seen
    requires stored <==> answers[i].Composes? || answers[i].Breaks?
    requires stored ==> ComesOf(a, e, answers[i], w.polls)
    requires Records(next, v, groups, answers, i + 1, if answers[i].Composes? then seen + Elements(e.tickers) else seen, rest)
    ensures Records(w, v, groups, answers, i, seen, r)
    ensures r.at == [i] + rest.at && r.tested == [e] + rest.tested
  {
    TestsOneMore(groups, answers, i, seen, rest.at, rest.tested, e);
    var origin := AlertsOneMore(answers, i, rest.at, rest.tested, rest.origin, rest.alerts, w.polls, e, stored, a);
    r := Record([i] + rest.at, [e] + rest.tested, origin, (if stored then [a] else []) + rest.alerts);
  }

  lemma HandledIs(offset: int, w: World, event: nat, tickers: seq<string>, answer: Answer)
    ensures var v := Handled(offset, w, event, tickers, answer);
            && v.evaluations == w.evaluations + [Evaluation(event, tickers, answer != Rejects)] && v.polls == w.polls
            && v.alerts == w.alerts + if Stores(answer) then [AlertOf(w, event, tickers, answer)] else []
  {
    var tested := Evaluated(w, event, tickers, !answer.Rejects?);
    if Stores(answer) {
      ComposedIs(offset, tested, AlertOf(tested, event, tickers, answer));
    }
  }

  lemma {:induction false} CycleRecords(offset: int, w: World, groups: seq<Group>, answers: seq<Answer>, i: nat, seen: set<string>)
    returns (r: Record)
    requires |answers| == |groups| && i <= |groups|
    ensures Records(w, Cycle(offset, w, groups[i..], answers[i..], seen), groups, answers, i, seen, r)
    ensures CycleRaises(groups[i..], answers[i..], seen) <==> !NoneHalts(groups, answers, i, seen, r.at, r.tested)
    decreases |groups| - i
  {
    if i == |groups| {
      return Record([], [], [], []);
    }
    assert groups[i..][1..] == groups[i + 1..] && answers[i..][1..] == answers[i + 1..];
    var unseen := Fresh(groups[i].tickers, seen);
    FreshMeans(groups[i].tickers, seen);
    if unseen == [] {
      r := CycleRecords(offset, w, groups, answers, i + 1, seen);
      TestsSkip(groups, answers, i, seen, r.at, r.tested);
      assert !Halts(groups, answers, seen, r.at, r.tested, i);
    } else if answers[i].EvaluatorRaises? {
      r := Record([], [], [], []);
      assert unseen[0] in unseen;
      TestsHalt(groups, answers, i, seen);
    } else {
      var next := Handled(offset, w, groups[i].event, unseen, answers[i]);
      var e := Evaluation(groups[i].event, unseen, answers[i] != Rejects);
      var rest := CycleRecords(offset, next, groups, answers, i + 1, SeenAfter(seen, unseen, answers[i]));
      var stored := Stores(answers[i]);
      var a := if stored then AlertOf(w, e.event, unseen, answers[i]) else Alert(0, [], 0, 0, None, 0);
      HandledIs(offset, w, groups[i].event, unseen, answers[i]);
      r := RecordOneMore(w, next, Cycle(offset, w, groups[i..], answers[i..], seen), groups, answers, i, seen, e, stored, a, rest);
      HaltsOneMore(groups, answers, i, seen, rest.at, rest.tested, e);
    }
  }

  /** A group in front that is evaluated, and maybe alerted. */
  lemma AlertsOneMore(answers: seq<Answer>, i: nat, at: seq<nat>, tested: seq<Evaluation>, origin: seq<nat>, alerts: seq<Alert>,
                      polls: nat, e: Evaluation, stored: bool, a: Alert) returns (more: seq<nat>)
    requires i < |answers| && Alerts(answers, at, tested, origin, alerts, polls)
    requires stored <==> answers[i].Composes? || answers[i].Breaks?
    requires stored ==> ComesOf(a, e, answers[i], polls)
    ensures Alerts(answers, [i] + at, [e] + tested, more, (if stored then [a] else []) + alerts, polls)
  {
    var later := OneFurther(origin);
    AlertsFurther(answers, i, at, tested, origin, later, alerts, polls, e);
    more := if stored then [0] + later else later;
    AlertsFromFirst(answers, [i] + at, [e] + tested, later, alerts, polls, stored, a);
    assert [] + alerts == alerts;
  }

  /** The alerts of all evaluations but the first. */
  ghost predicate LaterAlerts(answers: seq<Answer>, at: seq<nat>, tested: seq<Evaluation>, later: seq<nat>, alerts: seq<Alert>, polls: nat) {
    && |alerts| == |later| && |tested| == |at| && Increasing(later)
    && (forall k | 0 <= k < |at| :: at[k] < |answers|) && (forall n | 0 <= n < |later| :: 0 < later[n] < |at|)
    && (forall k :: k in later <==> 0 < k < |at| && (answers[at[k]].Composes? || answers[at[k]].Breaks?))
    && forall n | 0 <= n < |later| :: ComesOf(alerts[n], tested[later[n]], answers[at[later[n]]], polls)
  }

  lemma AlertsFurther(answers: seq<Answer>, i: nat, at: seq<nat>, tested: seq<Evaluation>, origin: seq<nat>, later: seq<nat>,
                      alerts: seq<Alert>, polls: nat, e: Evaluation)
    requires i < |answers| && Alerts(answers, at, tested, origin, alerts, polls)
    requires |later| == |origin| && forall n | 0 <= n < |origin| :: later[n] == origin[n] + 1
    requires forall k :: k in later <==> k > 0 && k - 1 in origin
    ensures LaterAlerts(answers, [i] + at, [e] + tested, later, alerts, polls)
  {
  }

  lemma AlertsFromFirst(answers: seq<Answer>, at: seq<nat>, tested: seq<Evaluation>, later: seq<nat>, alerts: seq<Alert>, polls: nat,
                        stored: bool, a: Alert)
    requires at != [] && LaterAlerts(answers, at, tested, later, alerts, polls)
    requires stored <==> answers[at[0]].Composes? || answers[at[0]].Breaks?
    requires stored ==> ComesOf(a, tested[0], answers[at[0]], polls)
    ensures if stored then Alerts(answers, at, tested, [0] + later, [a] + alerts, polls)
            else Alerts(answers, at, tested, later, alerts, polls)
  {
    if stored {
      var more := [0] + later;
      ZeroFirst(later);
      forall n | 0 <= n < |more|
        ensures more[n] < |at| && ComesOf(([a] + alerts)[n], tested[more[n]], answers[at[more[n]]], polls)
      {
        if n > 0 {
          assert more[n] == later[n - 1] && ([a] + alerts)[n] == alerts[n - 1];
        }
      }
    }
  }

  lemma ZeroFirst(later: seq<nat>)
    requires Increasing(later) && forall n | 0 <= n < |later| :: later[n] > 0
    ensures Increasing([0] + later) && forall k :: k in [0] + later <==> k == 0 || k in later
  {
  }

  lemma OneFurther(origin: seq<nat>) returns (later: seq<nat>)
    ensures |later| == |origin| && forall n | 0 <= n < |origin| :: later[n] == origin[n] + 1
    ensures forall k :: k in later <==> k > 0 && k - 1 in origin
  {
    later := seq(|origin|, n requires 0 <= n < |origin| => origin[n] + 1);
    forall k | k > 0 && k - 1 in origin
      ensures k in later
    {
      var n :| 0 <= n < |origin| && origin[n] == k - 1;
      assert later[n] == k;
    }
  }

  /** A passed evaluation of the alert's event and tickers is stored. */
  ghost predicate PassedFor(w: World, a: Alert) {
    exists e :: e in w.evaluations && e == Evaluation(a.event, a.tickers, true)
  }

  /** Every light alert of a cycle passed its evaluation; the evaluations of the groups it rejected have none. */
  lemma CyclePasses(offset: int, w: World, groups: seq<Group>, answers: seq<Answer>, seen: set<string>)
    requires |answers| == |groups| && forall a | a in w.alerts :: PassedFor(w, a)
    ensures var v := Cycle(offset, w, groups, answers, seen);
            w.evaluations <= v.evaluations && forall a | a in v.alerts :: PassedFor(v, a)
  {
    var v := Cycle(offset, w, groups, answers, seen);
    var r := CycleRecords(offset, w, groups, answers, 0, seen);
    assert groups[0..] == groups && answers[0..] == answers;
    forall a | a in v.alerts
      ensures PassedFor(v, a)
    {
      if a in w.alerts {
        assert PassedFor(w, a);
        var e :| e in w.evaluations && e == Evaluation(a.event, a.tickers, true);
        assert e in v.evaluations;
      } else {
        var n :| 0 <= n < |r.alerts| && r.alerts[n] == a;
        var k := r.origin[n];
        assert ComesOf(a, r.tested[k], answers[r.at[k]], w.polls) && TestedAs(groups, answers, seen, r.at, r.tested, k);
        assert r.tested[k] in v.evaluations && r.tested[k] == Evaluation(a.event, a.tickers, true);
      }
    }
  }

  // ----- no ticker twice on a local day, unless its compose broke -----

  /** A broken alert excuses another one on its ticker: in its own poll, and later if it did not get to suppress the ticker. */
  predicate Excused(a: Alert, poll: nat, t: string) {
    a.broken.Some? && (a.poll == poll || t !in Muted(a))
  }

  ghost predicate Apart(offset: int, a: Alert, b: Alert) {
    forall t | t in a.tickers && t in b.tickers :: NextMidnight(offset, a.local) <= b.gen || Excused(a, b.poll, t)
  }

  ghost predicate Spaced(offset: int, w: World) {
    && (forall i, j | 0 <= i < j < |w.alerts| :: Apart(offset, w.alerts[i], w.alerts[j]))
    && (forall i | 0 <= i < |w.alerts| :: w.alerts[i].gen <= w.alerts[i].local && NoRepeats(w.alerts[i].tickers))
  }

  /** The suppressed tickers of an alert stay so until the midnight after it. */
  ghost predicate CoveredAlert(offset: int, until: map<string, int>, a: Alert, now: int) {
    a.local <= now && forall t | t in Muted(a) :: t in until && until[t] >= NextMidnight(offset, a.local)
  }

  ghost predicate Covered(offset: int, w: World, now: int) {
    forall i | 0 <= i < |w.alerts| :: CoveredAlert(offset, w.until, w.alerts[i], now)
  }

  /** Every alert on an unseen ticker lies on a day that was over when the batch was fetched, or broke. */
  ghost predicate Free(offset: int, w: World, now: int, t: string) {
    forall i | 0 <= i < |w.alerts| && t in w.alerts[i].tickers ::
      NextMidnight(offset, w.alerts[i].local) <= now || Excused(w.alerts[i], w.polls, t)
  }

  function ActionsOf(alert: nat, tickers: seq<string>): seq<(nat, string)> {
    if tickers == [] then [] else [(alert, tickers[0])] + ActionsOf(alert, tickers[1..])
  }

  function AllActions(alerts: seq<Alert>): seq<(nat, string)> {
    if alerts == [] then []
    else AllActions(alerts[..|alerts| - 1]) + ActionsOf(|alerts| - 1, Asked(alerts[|alerts| - 1]))
  }

  /** The pending study actions are, in order, one for each alert and ticker it asked for. */
  ghost predicate Matched(w: World) {
    w.actions == AllActions(w.alerts)
  }

  lemma UptoRest(tickers: seq<string>, n: nat)
    requires tickers != [] && n > 0
    ensures Upto(tickers, n) == [tickers[0]] + Upto(tickers[1..], n - 1)
  {
  }

  lemma {:induction false} WrittenMeans(w: World, alert: nat, tickers: seq<string>, commits: nat, midnight: int)
    ensures var v, muted := Written(w, alert, tickers, commits, midnight), Upto(tickers, commits / 2);
            && v == w.(until := v.until, actions := w.actions + ActionsOf(alert, Upto(tickers, (commits + 1) / 2)))
            && (forall t :: t in v.until <==> t in w.until || t in muted)
            && (forall t | t in v.until :: v.until[t] == if t in muted then midnight else w.until[t])
    decreases tickers
  {
    if tickers == [] || commits == 0 {
      assert w.actions + [] == w.actions;
    } else {
      UptoRest(tickers, (commits + 1) / 2);
      var asked := w.(actions := w.actions + [(alert, tickers[0])]);
      if commits == 1 {
        assert Upto(tickers[1..], 0) == [] && ActionsOf(alert, [tickers[0]]) == [(alert, tickers[0])];
      } else {
        var next := asked.(until := asked.until[tickers[0] := midnight]);
        UptoRest(tickers, commits / 2);
        WrittenMeans(next, alert, tickers[1..], commits - 2, midnight);
        assert next.actions + ActionsOf(alert, Upto(tickers[1..], (commits - 1) / 2))
            == w.actions + ActionsOf(alert, Upto(tickers, (commits + 1) / 2));
      }
    }
  }

  lemma {:induction false} FreshMeans(tickers: seq<string>, seen: set<string>)
    ensures forall t :: t in Fresh(tickers, seen) <==> t in tickers && t !in seen
    ensures NoRepeats(tickers) ==> NoRepeats(Fresh(tickers, seen))
  {
    if tickers != [] {
      FreshMeans(tickers[1..], seen);
      assert tickers == [tickers[0]] + tickers[1..];
      var rest := Fresh(tickers[1..], seen);
      if NoRepeats(tickers) {
        assert NoRepeats(tickers[1..]);
        assert tickers[0] !in tickers[1..];
        if tickers[0] !in seen {
          HeadIsNew(tickers[0], rest);
        }
      }
    }
  }

  lemma LastIsNew(rest: seq<string>, last: string)
    requires NoRepeats(rest) && last !in rest
    ensures NoRepeats(rest + [last])
  {
  }

  lemma HeadIsNew(head: string, rest: seq<string>)
    requires NoRepeats(rest) && head !in rest
    ensures NoRepeats([head] + rest)
  {
  }

  /** The state the promoter keeps by time `now`. */
  ghost predicate Kept(offset: int, w: World, now: int) {
    Spaced(offset, w) && Covered(offset, w, now) && Matched(w)
  }

  lemma SpacedAfter(offset: int, w: World, a: Alert, fetched: int)
    requires Spaced(offset, w) && fetched <= a.gen <= a.local && NoRepeats(a.tickers) && a.poll == w.polls
    requires forall t | t in a.tickers :: Free(offset, w, fetched, t)
    ensures Spaced(offset, w.(alerts := w.alerts + [a]))
  {
    forall i | 0 <= i < |w.alerts|
      ensures Apart(offset, w.alerts[i], a)
    {
      assert forall t | t in a.tickers && t in w.alerts[i].tickers :: Free(offset, w, fetched, t);
    }
  }

  lemma CoveredAfter(offset: int, w: World, a: Alert, now: int, until: map<string, int>)
    requires Covered(offset, w, now) && now <= a.local
    requires forall t :: t in until <==> t in w.until || t in Muted(a)
    requires forall t | t in until :: until[t] == if t in Muted(a) then NextMidnight(offset, a.local) else w.until[t]
    ensures Covered(offset, w.(alerts := w.alerts + [a], until := until), a.local)
  {
    forall i | 0 <= i < |w.alerts|
      ensures CoveredAlert(offset, until, w.alerts[i], a.local)
    {
      assert CoveredAlert(offset, w.until, w.alerts[i], now);
      MidnightsInOrder(offset, w.alerts[i].local, a.local);
    }
  }

  lemma ComposedIs(offset: int, w: World, a: Alert)
    ensures var v := Composed(offset, w, a);
            && v == w.(alerts := w.alerts + [a], until := v.until, actions := w.actions + ActionsOf(|w.alerts|, Asked(a)))
            && (forall t :: t in v.until <==> t in w.until || t in Muted(a))
            && (forall t | t in v.until :: v.until[t] == if t in Muted(a) then NextMidnight(offset, a.local) else w.until[t])
  {
    WrittenMeans(w.(alerts := w.alerts + [a]), |w.alerts|, a.tickers, Commits(a), NextMidnight(offset, a.local));
    if a.broken.None? {
      assert Upto(a.tickers, |a.tickers|) == a.tickers;
    }
  }

  lemma ComposedKeeps(offset: int, w: World, a: Alert, fetched: int, now: int)
    requires Kept(offset, w, now) && fetched <= now <= a.gen <= a.local && NoRepeats(a.tickers) && a.poll == w.polls
    requires forall t | t in a.tickers :: Free(offset, w, fetched, t)
    ensures Kept(offset, Composed(offset, w, a), a.local)
  {
    var v := Composed(offset, w, a);
    ComposedIs(offset, w, a);
    assert v.alerts[..|w.alerts|] == w.alerts;
    SpacedAfter(offset, w, a, fetched);
    CoveredAfter(offset, w, a, now, v.until);
  }

  /** The times of the answers do not go back; an alert is suppressed after its brief is stored. */
  ghost predicate Timely(answers: seq<Answer>, now: int)
    decreases answers
  {
    if answers == [] then true
    else if Stores(answers[0]) then now <= answers[0].gen <= answers[0].local && Timely(answers[1..], answers[0].local)
    else Timely(answers[1..], now)
  }

  function TimeAfter(answer: Answer, now: int): int {
    if Stores(answer) then answer.local else now
  }

  function LastTime(answers: seq<Answer>, now: int): int
    decreases answers
  {
    if answers == [] then now else LastTime(answers[1..], TimeAfter(answers[0], now))
  }

  lemma {:induction false} LaterStillCovered(offset: int, w: World, answers: seq<Answer>, now: int)
    requires Covered(offset, w, now) && Timely(answers, now)
    ensures now <= LastTime(answers, now) && Covered(offset, w, LastTime(answers, now))
    decreases answers
  {
    if answers != [] {
      var later := TimeAfter(answers[0], now);
      forall i | 0 <= i < |w.alerts|
        ensures CoveredAlert(offset, w.until, w.alerts[i], later)
      {
        assert CoveredAlert(offset, w.until, w.alerts[i], now);
      }
      LaterStillCovered(offset, w, answers[1..], later);
    }
  }

  /** What the loop relies on for the groups it has not reached. */
  ghost predicate Awaiting(offset: int, w: World, fetched: int, groups: seq<Group>, seen: set<string>) {
    forall g | g in groups :: NoRepeats(g.tickers) && forall t | t in g.tickers && t !in seen :: Free(offset, w, fetched, t)
  }

  /** A new alert leaves the others free: it holds none of their tickers, or breaks, or they are seen from now on. */
  lemma FreeOn(offset: int, w: World, v: World, fetched: int, a: Alert, t: string)
    requires Free(offset, w, fetched, t) && v.alerts == w.alerts + [a] && v.polls == w.polls == a.poll
    requires t !in a.tickers || a.broken.Some?
    ensures Free(offset, v, fetched, t)
  {
  }

  lemma SameAlertsKeep(offset: int, w: World, v: World, fetched: int, groups: seq<Group>, seen: set<string>, now: int)
    requires v.alerts == w.alerts && v.until == w.until && v.actions == w.actions && v.polls == w.polls
    ensures Kept(offset, w, now) ==> Kept(offset, v, now)
    ensures Awaiting(offset, w, fetched, groups, seen) ==> Awaiting(offset, v, fetched, groups, seen)
  {
    forall t | Free(offset, w, fetched, t)
      ensures Free(offset, v, fetched, t)
    {
    }
  }

  /** One group handled: the state is kept, and the other groups await. */
  lemma HandledKeeps(offset: int, w: World, g: Group, rest: seq<Group>, seen: set<string>, fetched: int, now: int, answer: Answer)
    requires Kept(offset, w, now) && fetched <= now && Awaiting(offset, w, fetched, [g] + rest, seen)
    requires Stores(answer) ==> now <= answer.gen <= answer.local
    ensures var unseen := Fresh(g.tickers, seen);
            && Kept(offset, Handled(offset, w, g.event, unseen, answer), TimeAfter(answer, now))
            && Awaiting(offset, Handled(offset, w, g.event, unseen, answer), fetched, rest, SeenAfter(seen, unseen, answer))
  {
    var unseen := Fresh(g.tickers, seen);
    var tested := Evaluated(w, g.event, unseen, !answer.Rejects?);
    SameAlertsKeep(offset, w, tested, fetched, [g] + rest, seen, now);
    assert g in [g] + rest;
    FreshMeans(g.tickers, seen);
    if Stores(answer) {
      var a := AlertOf(tested, g.event, unseen, answer);
      assert forall t | t in unseen :: Free(offset, tested, fetched, t);
      ComposedKeeps(offset, tested, a, fetched, now);
      ComposedIs(offset, tested, a);
      forall h, t | h in rest && t in h.tickers && t !in SeenAfter(seen, unseen, answer)
        ensures Free(offset, Composed(offset, tested, a), fetched, t)
      {
        assert h in [g] + rest && Free(offset, tested, fetched, t);
        FreeOn(offset, tested, Composed(offset, tested, a), fetched, a, t);
      }
    }
    assert forall h | h in rest :: h in [g] + rest;
  }

  lemma LaterKept(offset: int, w: World, now: int, later: int)
    requires Kept(offset, w, now) && now <= later
    ensures Kept(offset, w, later)
  {
    forall i | 0 <= i < |w.alerts|
      ensures CoveredAlert(offset, w.until, w.alerts[i], later)
    {
      assert CoveredAlert(offset, w.until, w.alerts[i], now);
    }
  }

  lemma {:induction false} CycleKeeps(offset: int, w: World, groups: seq<Group>, answers: seq<Answer>, seen: set<string>,
                                      fetched: int, now: int)
    requires |answers| == |groups| && Kept(offset, w, now) && fetched <= now
    requires Timely(answers, now) && Awaiting(offset, w, fetched, groups, seen)
    ensures Kept(offset, Cycle(offset, w, groups, answers, seen), LastTime(answers, now))
    decreases groups
  {
    if groups != [] {
      var g, rest, answer := groups[0], groups[1..], answers[0];
      var unseen := Fresh(g.tickers, seen);
      assert groups == [g] + rest && forall h | h in rest :: h in groups;
      if unseen == [] {
        LaterKept(offset, w, now, TimeAfter(answer, now));
        CycleKeeps(offset, w, rest, answers[1..], seen, fetched, TimeAfter(answer, now));
      } else if answer.EvaluatorRaises? {
        LaterStillCovered(offset, w, answers, now);
      } else {
        HandledKeeps(offset, w, g, rest, seen, fetched, now, answer);
        CycleKeeps(offset, Handled(offset, w, g.event, unseen, answer), rest, answers[1..], SeenAfter(seen, unseen, answer),
                   fetched, TimeAfter(answer, now));
      }
    }
  }

  // ----- a fetched batch -----

  lemma {:induction false} GroupIs(groups: seq<Group>, g: Group)
    requires OneEach(groups) && g in groups
    ensures g.tickers == TickersIn(groups, g.event)
  {
    if groups[0] == g {
      NotIn(groups[1..], g.event);
    } else {
      assert groups == [groups[0]] + groups[1..];
      assert g in groups[1..];
      var k :| 0 <= k < |groups[1..]| && groups[1..][k] == g;
      EventAt(groups[1..], k);
      GroupIs(groups[1..], g);
    }
  }

  lemma {:induction false} TickersOfMeans(rows: seq<Row>, event: nat)
    ensures forall t | t in TickersOf(rows, event) :: exists r :: r in rows && r.event == event && r.ticker == t
    decreases rows
  {
    if rows != [] {
      var n := |rows| - 1;
      TickersOfMeans(rows[..n], event);
      forall t | t in TickersOf(rows, event)
        ensures exists r :: r in rows && r.event == event && r.ticker == t
      {
        if t in TickersOf(rows[..n], event) {
          var r :| r in rows[..n] && r.event == event && r.ticker == t;
          assert r in rows;
        } else {
          assert rows[n] in rows;
        }
      }
    }
  }

  /** A ticker's row names its event, ticker and the event's ingestion time, so rows that differ name different tickers. */
  lemma {:induction false} TickersDiffer(rows: seq<Row>, event: nat)
    requires NoRepeats(rows) && forall r, s | r in rows && s in rows && r.event == s.event :: r.ingested == s.ingested
    ensures NoRepeats(TickersOf(rows, event))
    decreases rows
  {
    if rows != [] {
      var n, last := |rows| - 1, rows[|rows| - 1];
      var front := rows[..n];
      assert forall r | r in front :: r in rows;
      TickersDiffer(front, event);
      TickersOfMeans(front, event);
      forall r | r in front
        ensures r != last
      {
        var k :| 0 <= k < n && front[k] == r;
        assert rows[k] != rows[n];
      }
      assert last in rows;
      forall t | t in TickersOf(front, event) && last.event == event
        ensures t != last.ticker
      {
        var r :| r in front && r.event == event && r.ticker == t;
        assert r in rows;
      }
      if last.event == event {
        LastIsNew(TickersOf(front, event), last.ticker);
      }
    }
  }

  /** At a fetch of the next poll, a candidate ticker is free: a suppressed one is so still on its alert's day. */
  lemma FetchedAwaits(offset: int, w: World, tb: Tables, now: int, salience: real, confidence: real, limit: nat, rows: seq<Row>)
    requires Kept(offset, w, now) && Fetched(tb, w.until, now, salience, confidence, limit, rows)
    ensures Awaiting(offset, w, now, Grouped(rows), {})
  {
    var groups := Grouped(rows);
    forall g | g in groups
      ensures NoRepeats(g.tickers) && forall t | t in g.tickers && t !in {} :: Free(offset, w, now, t)
    {
      GroupingConserves(rows, g.event);
      GroupIs(groups, g);
      TickersDiffer(rows, g.event);
      TickersOfMeans(rows, g.event);
      forall t | t in g.tickers
        ensures Free(offset, w, now, t)
      {
        var r :| r in rows && r.event == g.event && r.ticker == t;
        assert Candidate(tb, w.until, now, salience, confidence, r);
        forall i | 0 <= i < |w.alerts| && t in w.alerts[i].tickers
          ensures NextMidnight(offset, w.alerts[i].local) <= now || Excused(w.alerts[i], w.polls, t)
        {
          assert CoveredAlert(offset, w.until, w.alerts[i], now);
        }
      }
    }
  }

  // ----- any run of one promoter -----

  /** One poll: the tables as they are then, the query's answer, and what the outside does. */
  datatype Poll = Poll(now: int, tables: Tables, salience: real, confidence: real, limit: nat, gated: bool,
                       rows: seq<Row>, answers: seq<Answer>)

  function Polled(offset: int, w: World, poll: Poll): World
    requires |poll.answers| == |Grouped(poll.rows)|
  {
    if poll.gated then w
    else
      var v := Cycle(offset, w, Grouped(poll.rows), poll.answers, {});
      v.(polls := v.polls + 1)
  }

  /** Polls one after the other, at whatever times and over whatever tables. */
  ghost predicate Runs(offset: int, w: World, now: int, polls: seq<Poll>, v: World)
    decreases polls
  {
    if polls == [] then v == w
    else
      var p := polls[0];
      && now <= p.now && |p.answers| == |Grouped(p.rows)| && Timely(p.answers, p.now)
      && Fetched(p.tables, w.until, p.now, p.salience, p.confidence, p.limit, p.rows)
      && Runs(offset, Polled(offset, w, p), LastTime(p.answers, p.now), polls[1..], v)
  }

  /** In every run of polls, each light alert stands behind a passed evaluation of its event and tickers. */
  lemma {:induction false} EveryAlertPassed(offset: int, w: World, now: int, polls: seq<Poll>, v: World)
    requires Runs(offset, w, now, polls, v) && forall a | a in w.alerts :: PassedFor(w, a)
    ensures w.evaluations <= v.evaluations && forall a | a in v.alerts :: PassedFor(v, a)
    decreases polls
  {
    if polls != [] {
      var p := polls[0];
      var next := Polled(offset, w, p);
      CyclePasses(offset, w, Grouped(p.rows), p.answers, {});
      assert forall a | a in next.alerts :: PassedFor(Cycle(offset, w, Grouped(p.rows), p.answers, {}), a) || PassedFor(w, a);
      EveryAlertPassed(offset, next, LastTime(p.answers, p.now), polls[1..], v);
    }
  }

  lemma NextPollKept(offset: int, w: World, now: int)
    requires Kept(offset, w, now)
    ensures Kept(offset, w.(polls := w.polls + 1), now)
  {
    forall i | 0 <= i < |w.alerts|
      ensures CoveredAlert(offset, w.until, w.alerts[i], now)
    {
    }
  }

  lemma PolledKeeps(offset: int, w: World, now: int, p: Poll)
    requires Kept(offset, w, now) && now <= p.now && |p.answers| == |Grouped(p.rows)| && Timely(p.answers, p.now)
    requires Fetched(p.tables, w.until, p.now, p.salience, p.confidence, p.limit, p.rows)
    ensures Kept(offset, Polled(offset, w, p), LastTime(p.answers, p.now))
  {
    LaterKept(offset, w, now, p.now);
    if p.gated {
      LaterStillCovered(offset, w, p.answers, p.now);
    } else {
      FetchedAwaits(offset, w, p.tables, p.now, p.salience, p.confidence, p.limit, p.rows);
      CycleKeeps(offset, w, Grouped(p.rows), p.answers, {}, p.now, p.now);
      NextPollKept(offset, Cycle(offset, w, Grouped(p.rows), p.answers, {}), LastTime(p.answers, p.now));
    }
  }

  lemma {:induction false} RunKeeps(offset: int, w: World, now: int, polls: seq<Poll>, v: World)
    requires Kept(offset, w, now) && Runs(offset, w, now, polls, v)
    ensures Spaced(offset, v) && Matched(v)
    decreases polls
  {
    if polls != [] {
      PolledKeeps(offset, w, now, polls[0]);
      RunKeeps(offset, Polled(offset, w, polls[0]), LastTime(polls[0].answers, polls[0].now), polls[1..], v);
    }
  }

  /** The later alert lies on a later local day, by the time its brief was stored and by that of its suppression. */
  predicate OnLaterDay(offset: int, a: Alert, b: Alert) {
    Day(offset, a.gen) < Day(offset, b.gen) && Day(offset, a.local) < Day(offset, b.local)
  }

  /**
   Over any run: a ticker is in two light alerts of one local day only if the compose of
   the first one broke, and then only within that poll, or for a ticker it had not suppressed.
   No ticker is twice in one alert, and the pending study actions are, in order, one for
   each alert and ticker it asked for: those it suppressed, and at most the one after them.
   */
  lemma RepeatsComeFromBreaks(offset: int, start: int, polls: seq<Poll>, v: World)
    requires Runs(offset, EMPTY, start, polls, v)
    ensures forall i, j, t | 0 <= i < j < |v.alerts| && t in v.alerts[i].tickers && t in v.alerts[j].tickers ::
              OnLaterDay(offset, v.alerts[i], v.alerts[j]) || Excused(v.alerts[i], v.alerts[j].poll, t)
    ensures forall i | 0 <= i < |v.alerts| :: NoRepeats(v.alerts[i].tickers)
    ensures v.actions == AllActions(v.alerts)
    ensures forall a | a in v.alerts :: Muted(a) <= Asked(a) <= a.tickers && |Asked(a)| <= |Muted(a)| + 1
  {
    RunKeeps(offset, EMPTY, start, polls, v);
    forall i, j, t | 0 <= i < j < |v.alerts| && t in v.alerts[i].tickers && t in v.alerts[j].tickers
      ensures OnLaterDay(offset, v.alerts[i], v.alerts[j]) || Excused(v.alerts[i], v.alerts[j].poll, t)
    {
      var a, b := v.alerts[i], v.alerts[j];
      assert Apart(offset, a, b);
      if NextMidnight(offset, a.local) <= b.gen {
        AfterMidnight(offset, a.local, b.gen);
        MidnightsInOrder(offset, a.gen, a.local);
        MidnightsInOrder(offset, b.gen, b.local);
      }
    }
  }

  // ----- for one ticker: once a day if none of its composes breaks -----

  /** No compose on ticker t breaks: no Breaks answers a group whose unseen tickers hold t. */
  ghost predicate CleanCycle(t: string, groups: seq<Group>, answers: seq<Answer>, seen: set<string>)
    requires |answers| == |groups|
    decreases groups
  {
    groups == []
    || (var unseen := Fresh(groups[0].tickers, seen);
        && (answers[0].Breaks? ==> t !in unseen)
        && CleanCycle(t, groups[1..], answers[1..], if unseen == [] then seen else SeenAfter(seen, unseen, answers[0])))
  }

  ghost predicate CleanRun(t: string, polls: seq<Poll>) {
    forall p | p in polls :: |p.answers| == |Grouped(p.rows)| && CleanCycle(t, Grouped(p.rows), p.answers, {})
  }

  ghost predicate NoneBroken(w: World, t: string) {
    forall i | 0 <= i < |w.alerts| && t in w.alerts[i].tickers :: w.alerts[i].broken.None?
  }

  lemma HandledBreaksNone(offset: int, w: World, event: nat, tickers: seq<string>, answer: Answer, t: string)
    requires NoneBroken(w, t) && (answer.Breaks? ==> t !in tickers)
    ensures NoneBroken(Handled(offset, w, event, tickers, answer), t)
  {
    var tested := Evaluated(w, event, tickers, !answer.Rejects?);
    if Stores(answer) {
      ComposedIs(offset, tested, AlertOf(tested, event, tickers, answer));
    }
  }

  lemma {:induction false} CycleBreaksNone(offset: int, w: World, groups: seq<Group>, answers: seq<Answer>, seen: set<string>, t: string)
    requires |answers| == |groups| && NoneBroken(w, t) && CleanCycle(t, groups, answers, seen)
    ensures NoneBroken(Cycle(offset, w, groups, answers, seen), t)
    decreases groups
  {
    if groups != [] {
      var unseen := Fresh(groups[0].tickers, seen);
      if unseen == [] {
        CycleBreaksNone(offset, w, groups[1..], answers[1..], seen, t);
      } else if !answers[0].EvaluatorRaises? {
        HandledBreaksNone(offset, w, groups[0].event, unseen, answers[0], t);
        CycleBreaksNone(offset, Handled(offset, w, groups[0].event, unseen, answers[0]), groups[1..], answers[1..],
                        SeenAfter(seen, unseen, answers[0]), t);
      }
    }
  }

  lemma {:induction false} RunBreaksNone(offset: int, w: World, now: int, polls: seq<Poll>, v: World, t: string)
    requires NoneBroken(w, t) && CleanRun(t, polls) && Runs(offset, w, now, polls, v)
    ensures NoneBroken(v, t)
    decreases polls
  {
    if polls != [] {
      assert polls[0] in polls;
      if !polls[0].gated {
        CycleBreaksNone(offset, w, Grouped(polls[0].rows), polls[0].answers, {}, t);
      }
      RunBreaksNone(offset, Polled(offset, w, polls[0]), LastTime(polls[0].answers, polls[0].now), polls[1..], v, t);
    }
  }

  /** If no compose on a ticker breaks, whatever breaks for others, no two light alerts on it share a local day. */
  lemma OncePerLocalDay(offset: int, start: int, polls: seq<Poll>, v: World, t: string)
    requires Runs(offset, EMPTY, start, polls, v) && CleanRun(t, polls)
    ensures forall i, j | 0 <= i < j < |v.alerts| && t in v.alerts[i].tickers && t in v.alerts[j].tickers ::
              OnLaterDay(offset, v.alerts[i], v.alerts[j])
  {
    RepeatsComeFromBreaks(offset, start, polls, v);
    RunBreaksNone(offset, EMPTY, start, polls, v, t);
  }

  // ----- a broken alert's tickers do repeat -----

  /**
   Before the next midnight, an alert takes exactly the tickers it suppressed out of the
   candidates: those a broken compose did not get to are fetched again by the next poll, one of
   them perhaps with its study already pending.
   */
  lemma OnlyMutedAreSuppressed(offset: int, w: World, a: Alert, tb: Tables, now: int, salience: real, confidence: real, r: Row)
    requires now < NextMidnight(offset, a.local)
    ensures Candidate(tb, Composed(offset, w, a).until, now, salience, confidence, r) <==>
              Candidate(tb, w.until, now, salience, confidence, r) && r.ticker !in Muted(a)
  {
    ComposedIs(offset, w, a);
  }

  // ----- what a cycle alerts -----

  ghost predicate AlertedSince(w: World, v: World, t: string) {
    exists i :: |w.alerts| <= i < |v.alerts| && t in v.alerts[i].tickers
  }

  ghost predicate AllCompose(answers: seq<Answer>) {
    forall a | a in answers :: a.Composes?
  }

  /** If nothing fails, every ticker of the batch gets an alert in this cycle. */
  lemma {:induction false} CycleAlertsAll(offset: int, w: World, groups: seq<Group>, answers: seq<Answer>, seen: set<string>)
    requires |answers| == |groups| && AllCompose(answers)
    ensures w.alerts <= Cycle(offset, w, groups, answers, seen).alerts
    ensures forall g, t | g in groups && t in g.tickers && t !in seen ::
              AlertedSince(w, Cycle(offset, w, groups, answers, seen), t)
    decreases groups
  {
    if groups != [] {
      var g, rest := groups[0], groups[1..];
      var v := Cycle(offset, w, groups, answers, seen);
      var unseen := Fresh(g.tickers, seen);
      assert groups == [g] + rest && answers[0] in answers;
      FreshMeans(g.tickers, seen);
      if unseen == [] {
        CycleAlertsAll(offset, w, rest, answers[1..], seen);
      } else {
        var tested := Evaluated(w, g.event, unseen, true);
        var next := Handled(offset, w, g.event, unseen, answers[0]);
        ComposedIs(offset, tested, AlertOf(tested, g.event, unseen, answers[0]));
        CycleAlertsAll(offset, next, rest, answers[1..], seen + Elements(unseen));
        forall h, t | h in groups && t in h.tickers && t !in seen
          ensures AlertedSince(w, v, t)
        {
          if t in unseen {
            assert v.alerts[|w.alerts|].tickers == unseen;
          } else {
            assert h in rest && AlertedSince(next, v, t);
          }
        }
      }
    }
  }

  // ----- a broken alert is repeated within the batch -----

  /** Up to group j the evaluator answers, and no compose on the ticker goes through. */
  ghost predicate Uncomposed(groups: seq<Group>, answers: seq<Answer>, t: string, j: nat)
    requires j <= |groups| == |answers|
  {
    forall k | 0 <= k < j :: !answers[k].EvaluatorRaises? && (t in groups[k].tickers ==> !answers[k].Composes?)
  }

  lemma HandledAlerts(offset: int, w: World, event: nat, tickers: seq<string>, answer: Answer)
    requires !answer.EvaluatorRaises?
    ensures var v := Handled(offset, w, event, tickers, answer);
            && v.polls == w.polls && w.alerts <= v.alerts
            && (Stores(answer) ==> |v.alerts| == |w.alerts| + 1 && v.alerts[|w.alerts|].tickers == tickers
                                   && v.alerts[|w.alerts|].poll == w.polls && v.alerts[|w.alerts|].broken.Some? == answer.Breaks?)
  {
    var tested := Evaluated(w, event, tickers, !answer.Rejects?);
    if Stores(answer) {
      ComposedIs(offset, tested, AlertOf(tested, event, tickers, answer));
    }
  }

  /** One group on: the ticker is still unseen, and the rest is as long as before. */
  lemma NextGroup(offset: int, w: World, groups: seq<Group>, answers: seq<Answer>, seen: set<string>, t: string, j: nat)
    returns (next: World, later: set<string>)
    requires 0 < j <= |groups| == |answers| && t !in seen && Uncomposed(groups, answers, t, j)
    ensures Cycle(offset, w, groups, answers, seen) == Cycle(offset, next, groups[1..], answers[1..], later)
    ensures t !in later && Uncomposed(groups[1..], answers[1..], t, j - 1) && next.polls == w.polls && w.alerts <= next.alerts
    ensures t in groups[0].tickers && answers[0].Breaks? ==>
              |next.alerts| == |w.alerts| + 1 && t in next.alerts[|w.alerts|].tickers
              && next.alerts[|w.alerts|].poll == w.polls && next.alerts[|w.alerts|].broken.Some?
  {
    var unseen := Fresh(groups[0].tickers, seen);
    FreshMeans(groups[0].tickers, seen);
    assert forall k | 0 <= k < j - 1 :: answers[1..][k] == answers[k + 1] && groups[1..][k] == groups[k + 1];
    assert !answers[0].EvaluatorRaises?;
    if unseen == [] {
      next, later := w, seen;
    } else {
      HandledAlerts(offset, w, groups[0].event, unseen, answers[0]);
      next, later := Handled(offset, w, groups[0].event, unseen, answers[0]), SeenAfter(seen, unseen, answers[0]);
    }
  }

  /** The group at j whose compose goes through alerts the ticker. */
  lemma {:induction false} AlertedAt(offset: int, w: World, groups: seq<Group>, answers: seq<Answer>, seen: set<string>,
                                     t: string, j: nat) returns (n: nat)
    requires j < |groups| == |answers| && t !in seen && Uncomposed(groups, answers, t, j)
    requires t in groups[j].tickers && answers[j].Composes?
    ensures var v := Cycle(offset, w, groups, answers, seen);
            w.alerts <= v.alerts && |w.alerts| <= n < |v.alerts| && t in v.alerts[n].tickers && v.alerts[n].poll == w.polls
    decreases j
  {
    if j > 0 {
      var next, later := NextGroup(offset, w, groups, answers, seen, t, j);
      n := AlertedAt(offset, next, groups[1..], answers[1..], later, t, j - 1);
    } else {
      var unseen := Fresh(groups[0].tickers, seen);
      FreshMeans(groups[0].tickers, seen);
      HandledAlerts(offset, w, groups[0].event, unseen, answers[0]);
      CycleKeepsAlerts(offset, Handled(offset, w, groups[0].event, unseen, answers[0]), groups[1..], answers[1..],
                       SeenAfter(seen, unseen, answers[0]));
      n := |w.alerts|;
    }
  }

  lemma {:induction false} CycleKeepsAlerts(offset: int, w: World, groups: seq<Group>, answers: seq<Answer>, seen: set<string>)
    requires |answers| == |groups|
    ensures w.alerts <= Cycle(offset, w, groups, answers, seen).alerts
    decreases groups
  {
    if groups != [] {
      var unseen := Fresh(groups[0].tickers, seen);
      if unseen == [] {
        CycleKeepsAlerts(offset, w, groups[1..], answers[1..], seen);
      } else if !answers[0].EvaluatorRaises? {
        HandledAlerts(offset, w, groups[0].event, unseen, answers[0]);
        CycleKeepsAlerts(offset, Handled(offset, w, groups[0].event, unseen, answers[0]), groups[1..], answers[1..],
                         SeenAfter(seen, unseen, answers[0]));
      }
    }
  }

  /**
   Within a batch, every ticker of a broken alert is alerted again: by the next group that
   names it and is composed, whatever groups stand before, between and after.
   */
  lemma {:induction false} BrokenGroupIsAlertedAgain(offset: int, w: World, groups: seq<Group>, answers: seq<Answer>,
                                                     seen: set<string>, t: string, i: nat, j: nat)
    requires i < j < |groups| == |answers| && t !in seen && Uncomposed(groups, answers, t, j)
    requires t in groups[i].tickers && answers[i].Breaks? && t in groups[j].tickers && answers[j].Composes?
    ensures var v := Cycle(offset, w, groups, answers, seen);
            exists m, n :: |w.alerts| <= m < n < |v.alerts| && t in v.alerts[m].tickers && t in v.alerts[n].tickers
                           && v.alerts[m].broken.Some? && v.alerts[m].poll == v.alerts[n].poll
    decreases i
  {
    var next, later := NextGroup(offset, w, groups, answers, seen, t, j);
    if i > 0 {
      BrokenGroupIsAlertedAgain(offset, next, groups[1..], answers[1..], later, t, i - 1, j - 1);
    } else {
      var n := AlertedAt(offset, next, groups[1..], answers[1..], later, t, j - 1);
      var v := Cycle(offset, w, groups, answers, seen);
      assert v.alerts[|w.alerts|] == next.alerts[|w.alerts|];
      assert t in v.alerts[|w.alerts|].tickers && t in v.alerts[n].tickers;
    }
  }

  // ----- what composing stores, on the tables alone -----

  /**
   A compose that makes `commits` of the commits for its tickers, two for each: one more
   alert, a pending study on it for each ticker reached, in order, and a suppression until
   the next local midnight for each ticker whose second commit was made too.
   */
  ghost predicate StoresLight(offset: int, w: World, v: World, event: nat, tickers: seq<string>, answer: Answer, commits: nat)
    requires answer.Composes? || answer.Breaks?
  {
    && v == w.(alerts := v.alerts, actions := v.actions, until := v.until)
    && v.alerts == w.alerts + [Alert(event, tickers, answer.gen, answer.local,
                                     if answer.Breaks? then Some(answer.upto) else None, w.polls)]
    && var asked, muted := Min((commits + 1) / 2, |tickers|), Min(commits / 2, |tickers|);
       && |v.actions| == |w.actions| + asked && w.actions <= v.actions
       && (forall k | 0 <= k < asked :: v.actions[|w.actions| + k] == (|w.alerts|, tickers[k]))
       && (forall t :: t in v.until <==> t in w.until || t in tickers[..muted])
       && (forall t | t in v.until :: v.until[t] ==
             if t in tickers[..muted] then ((answer.local + offset) / 86400 + 1) * 86400 - offset else w.until[t])
  }

  lemma {:induction false} ActionsMean(alert: nat, tickers: seq<string>)
    ensures |ActionsOf(alert, tickers)| == |tickers|
    ensures forall k | 0 <= k < |tickers| :: ActionsOf(alert, tickers)[k] == (alert, tickers[k])
  {
    if tickers != [] {
      ActionsMean(alert, tickers[1..]);
    }
  }

  lemma ComposedStores(offset: int, w: World, event: nat, tickers: seq<string>, answer: Answer)
    requires answer.Composes? || answer.Breaks?
    ensures StoresLight(offset, w, Composed(offset, w, AlertOf(w, event, tickers, answer)), event, tickers, answer,
                        if answer.Composes? then 2 * |tickers| else answer.upto)
  {
    var a := AlertOf(w, event, tickers, answer);
    ComposedIs(offset, w, a);
    StoresAsked(offset, w, Composed(offset, w, a), event, tickers, answer, Commits(a), NextMidnight(offset, answer.local));
  }

  lemma StoresAsked(offset: int, w: World, v: World, event: nat, tickers: seq<string>, answer: Answer, commits: nat, midnight: int)
    requires (answer.Composes? || answer.Breaks?) && midnight == NextMidnight(offset, answer.local)
    requires v == w.(alerts := v.alerts, until := v.until, actions := w.actions + ActionsOf(|w.alerts|, Upto(tickers, (commits + 1) / 2)))
    requires v.alerts == w.alerts + [AlertOf(w, event, tickers, answer)]
    requires forall t :: t in v.until <==> t in w.until || t in Upto(tickers, commits / 2)
    requires forall t | t in v.until :: v.until[t] == if t in Upto(tickers, commits / 2) then midnight else w.until[t]
    ensures StoresLight(offset, w, v, event, tickers, answer, commits)
  {
    ActionsMean(|w.alerts|, Upto(tickers, (commits + 1) / 2));
  }

  // ----- the promoter and its secretary -----

  class Daemon {
    const offset: int
    var w: World

    constructor (offset: int)
      ensures this.offset == offset && w == EMPTY
    {
      this.offset, w := offset, EMPTY;
    }

    /** compose_event_alert_light: the brief, then an action and a suppression for each ticker, as far as it gets. */
    method ComposeEventAlertLight(event: nat, tickers: seq<string>, answer: Answer) returns (done: bool)
      modifies this
      ensures done == answer.Composes?
      ensures w == if Stores(answer) then Composed(offset, old(w), AlertOf(old(w), event, tickers, answer)) else old(w)
      ensures if answer.Composes? then StoresLight(offset, old(w), w, event, tickers, answer, 2 * |tickers|)
              else if answer.Breaks? then StoresLight(offset, old(w), w, event, tickers, answer, answer.upto)
              else w == old(w)
    {
      if !Stores(answer) {
        return false;
      }
      var a := AlertOf(w, event, tickers, answer);
      var alert, midnight := |w.alerts|, NextMidnight(offset, answer.local);
      ComposedStores(offset, w, event, tickers, answer);
      w := w.(alerts := w.alerts + [a]);
      ghost var added := w;
      var rest, left := tickers, Commits(a);
      while rest != [] && left > 0
        invariant a.broken.None? ==> left == 2 * |rest|
        invariant Written(w, alert, rest, left, midnight) == Written(added, alert, tickers, Commits(a), midnight)
        decreases |rest|, left
      {
        w := w.(actions := w.actions + [(alert, rest[0])]);
        if left == 1 {
          return false;
        }
        w := w.(until := w.until[rest[0] := midnight]);
        rest, left := rest[1..], left - 2;
      }
      done := answer.Composes?;
    }

    method Filter(tickers: seq<string>, seen: set<string>) returns (unseen: seq<string>)
      ensures unseen == Fresh(tickers, seen)
    {
      unseen := [];
      var rest := tickers;
      while rest != []
        invariant unseen + Fresh(rest, seen) == Fresh(tickers, seen)
        decreases |rest|
      {
        if rest[0] !in seen {
          unseen := unseen + [rest[0]];
        }
        rest := rest[1..];
      }
    }

    /**
     run_once with the approval gate on; `open` says whether both guards let the cycle run.
     `r` says what it puts on record: the evaluations, and the alerts that come of them.
     */
    method RunOnce(open: bool, rows: seq<Row>, answers: seq<Answer>) returns (composed: nat, raised: bool, ghost r: Record)
      requires |answers| == |Grouped(rows)|
      modifies this
      ensures w == if open then Cycle(offset, old(w), Grouped(rows), answers, {}) else old(w)
      ensures open ==> Records(old(w), w, Grouped(rows), answers, 0, {}, r)
      ensures open ==> (raised <==> exists m :: 0 <= m < |Grouped(rows)| && Halts(Grouped(rows), answers, {}, r.at, r.tested, m))
      ensures !open ==> composed == 0 && !raised
      ensures composed == Complete(w.alerts) - Complete(old(w).alerts)
    {
      composed, raised, r := 0, false, Record([], [], [], []);
      if !open {
        return;
      }
      var groups := GroupRows(rows);
      r := CycleRecords(offset, w, groups, answers, 0, {});
      assert groups[0..] == groups && answers[0..] == answers;
      var seen: set<string>, rest, a := {}, groups, answers;
      while rest != []
        invariant |a| == |rest| && composed == Complete(w.alerts) - Complete(old(w).alerts)
        invariant Cycle(offset, w, rest, a, seen) == Cycle(offset, old(w), groups, answers, {})
        invariant CycleRaises(rest, a, seen) == CycleRaises(groups, answers, {})
        decreases |rest|
      {
        var g, answer := rest[0], a[0];
        var unseen := Filter(g.tickers, seen);
        rest, a := rest[1..], a[1..];
        if unseen != [] {
          if answer.EvaluatorRaises? {
            return composed, true, r;
          }
          w := Evaluated(w, g.event, unseen, !answer.Rejects?);
          if !answer.Rejects? {
            ghost var tested := w;
            var done := ComposeEventAlertLight(g.event, unseen, answer);
            if Stores(answer) {
              ComposedIs(offset, tested, AlertOf(tested, g.event, unseen, answer));
              OneMoreComplete(tested.alerts, AlertOf(tested, g.event, unseen, answer));
            }
            if done {
              seen := seen + Elements(unseen);
              composed := composed + 1;
            }
          }
        }
      }
    }
  }

  /** The alerts whose compose went through. */
  function Complete(alerts: seq<Alert>): nat {
    if alerts == [] then 0 else Complete(alerts[..|alerts| - 1]) + if alerts[|alerts| - 1].broken.None? then 1 else 0
  }

  lemma OneMoreComplete(alerts: seq<Alert>, a: Alert)
    ensures Complete(alerts + [a]) == Complete(alerts) + if a.broken.None? then 1 else 0
  {
    assert (alerts + [a])[..|alerts|] == alerts;
  }
}
