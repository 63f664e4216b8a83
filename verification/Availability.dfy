/**
 The availability policy (tradingagents/llm_clients/availability.py): the failure
 counter with its once-per-outage alert, the daily fallback budget that survives
 restarts, and the call routing built on both (call_llm in
 tradingagents/sensing/triage.py).
 */
module Availability {
  import opened Basics
  import opened Outcomes

  // ----- AvailabilityCounter -----

  /** One recorded outcome of an LLM call; `saved` says whether a failure's persist worked. */
  datatype Call = Failure(saved: bool) | Success

  /**
   One daemon's failure counter. `stored` is its ops_counters row and `fired` counts
   the invocations of the outage callback.
   */
  datatype Counter = Counter(consecutive: nat, total: nat, alerted: bool, stored: nat, fired: nat)

  /** `threshold` is None when the callback or the alert threshold is missing. */
  function CounterStep(c: Counter, call: Call, threshold: Option<int>): Counter {
    match call
    case Success => c.(consecutive := 0, alerted := false)
    case Failure(saved) =>
      var fire := threshold.Some? && !c.alerted && c.consecutive + 1 >= threshold.value;
      Counter(c.consecutive + 1, c.total + 1, c.alerted || fire,
              if saved then c.stored + 1 else c.stored, if fire then c.fired + 1 else c.fired)
  }

  function CounterRun(history: seq<Call>, threshold: Option<int>, stored: nat): Counter {
    if history == [] then Counter(0, 0, false, stored, 0)
    else CounterStep(CounterRun(history[..|history| - 1], threshold, stored), history[|history| - 1], threshold)
  }

  /** The failures since the last success. */
  function TrailingRun(history: seq<Call>): nat {
    if history == [] || history[|history| - 1].Success? then 0 else 1 + TrailingRun(history[..|history| - 1])
  }

  /** The counter is in the middle of the trailing run, and has alerted for it exactly if it is long enough. */
  lemma {:induction false} CounterInRun(history: seq<Call>, threshold: Option<int>, stored: nat)
    ensures var c := CounterRun(history, threshold, stored);
            && c.consecutive == TrailingRun(history)
            && (c.alerted <==> threshold.Some? && c.consecutive >= Max(1, threshold.value))
  {
    if history != [] {
      CounterInRun(history[..|history| - 1], threshold, stored);
    }
  }

  lemma NextCall(history: seq<Call>, call: Call, threshold: Option<int>, stored: nat)
    ensures CounterRun(history + [call], threshold, stored) == CounterStep(CounterRun(history, threshold, stored), call, threshold)
    ensures TrailingRun(history + [call]) == if call.Failure? then TrailingRun(history) + 1 else 0
  {
    assert (history + [call])[..|history|] == history;
  }

  /** The failure that brings the trailing run to the threshold fires, and no other. */
  lemma FiresAtThreshold(history: seq<Call>, saved: bool, threshold: Option<int>, stored: nat)
    ensures var c, d := CounterRun(history, threshold, stored), CounterRun(history + [Failure(saved)], threshold, stored);
            && d == CounterStep(c, Failure(saved), threshold)
            && c.consecutive == TrailingRun(history)
            && TrailingRun(history + [Failure(saved)]) == TrailingRun(history) + 1
            && d.fired == c.fired + if threshold.Some? && d.consecutive == Max(1, threshold.value) then 1 else 0
  {
    CounterInRun(history, threshold, stored);
    NextCall(history, Failure(saved), threshold, stored);
  }

  /** `history` records the calls the counter was told of, `initial` what was stored before them. */
  class AvailabilityCounter {
    const alertThreshold: Option<int>
    const hasCallback: bool
    const initial: nat
    var consecutive: nat
    var total: nat
    var alertedSinceLastSuccess: bool
    var stored: nat
    var fired: nat
    ghost var history: seq<Call>

    function Threshold(): Option<int> {
      if hasCallback then alertThreshold else None
    }

    function View(): Counter
      reads this
    {
      Counter(consecutive, total, alertedSinceLastSuccess, stored, fired)
    }

    ghost predicate Valid()
      reads this
    {
      View() == CounterRun(history, Threshold(), initial)
    }

    constructor (alertThreshold: Option<int>, hasCallback: bool, stored: nat)
      ensures Valid() && history == []
      ensures this.alertThreshold == alertThreshold && this.hasCallback == hasCallback && this.initial == stored
    {
      this.alertThreshold, this.hasCallback, this.initial := alertThreshold, hasCallback, stored;
      this.consecutive, this.total, this.alertedSinceLastSuccess := 0, 0, false;
      this.stored, this.fired, this.history := stored, 0, [];
    }

    /**
     One more failure of the trailing run; the callback fires exactly when the run reaches
     max(1, threshold), so once an outage.
     */
    method RecordFailure(persistFails: bool)
      requires Valid()
      modifies this
      ensures Valid() && history == old(history) + [Failure(!persistFails)]
      ensures consecutive == TrailingRun(history) == TrailingRun(old(history)) + 1
      ensures total == old(total) + 1 && stored == old(stored) + if persistFails then 0 else 1
      ensures fired == old(fired) + if hasCallback && alertThreshold.Some? && consecutive == Max(1, alertThreshold.value) then 1 else 0
    {
      ghost var told := history + [Failure(!persistFails)];
      ghost var before := View();
      FiresAtThreshold(history, !persistFails, Threshold(), initial);
      consecutive := consecutive + 1;
      total := total + 1;
      if !persistFails {
        stored := stored + 1;
      }
      if hasCallback && alertThreshold.Some? && !alertedSinceLastSuccess && consecutive >= alertThreshold.value {
        alertedSinceLastSuccess := true;
        fired := fired + 1;
      }
      assert View() == CounterStep(before, Failure(!persistFails), Threshold());
      history := told;
    }

    /** The run is over: the next failure starts a new one, which can alert again. Nothing counted is lost. */
    method RecordSuccess()
      requires Valid()
      modifies this
      ensures Valid() && history == old(history) + [Success]
      ensures consecutive == TrailingRun(history) == 0
      ensures total == old(total) && stored == old(stored) && fired == old(fired)
      ensures !alertedSinceLastSuccess
    {
      NextCall(history, Success, Threshold(), initial);
      consecutive := 0;
      alertedSinceLastSuccess := false;
      history := history + [Success];
    }
  }

  // ----- what the counter has counted, read off the history alone -----

  /** The lengths of the maximal failure runs, oldest first: a run is closed by a success or by the end. */
  function Outages(history: seq<Call>, run: nat): seq<nat> {
    if history == [] then Closed(run)
    else if history[0].Failure? then Outages(history[1..], run + 1)
    else Closed(run) + Outages(history[1..], 0)
  }

  function Closed(run: nat): seq<nat> {
    if run == 0 then [] else [run]
  }

  /** How many outages lasted at least `least` failures. */
  function Lasting(outages: seq<nat>, least: int): nat {
    if outages == [] then 0 else Lasting(outages[1..], least) + if outages[0] >= least then 1 else 0
  }

  function Failures(history: seq<Call>): nat {
    if history == [] then 0 else Failures(history[1..]) + if history[0].Failure? then 1 else 0
  }

  function Unsaved(history: seq<Call>): nat {
    if history == [] then 0 else Unsaved(history[1..]) + if history[0] == Failure(false) then 1 else 0
  }

  /** A run read from the front: the counter after `history`, starting from counter c. */
  function CounterFrom(c: Counter, history: seq<Call>, threshold: Option<int>): Counter
    decreases history
  {
    if history == [] then c else CounterFrom(CounterStep(c, history[0], threshold), history[1..], threshold)
  }

  lemma {:induction false} FrontIsBack(history: seq<Call>, k: nat, threshold: Option<int>, stored: nat)
    requires k <= |history|
    ensures CounterFrom(CounterRun(history[..k], threshold, stored), history[k..], threshold)
         == CounterRun(history, threshold, stored)
    decreases |history| - k
  {
    if k < |history| {
      assert history[..k + 1][..k] == history[..k] && history[k..][1..] == history[k + 1..];
      FrontIsBack(history, k + 1, threshold, stored);
    } else {
      assert history[..k] == history && history[k..] == [];
    }
  }

  /** The counter is in the middle of a failure run, and has alerted for it exactly if it is long enough. */
  ghost predicate InRun(c: Counter, threshold: Option<int>) {
    c.alerted <==> threshold.Some? && c.consecutive >= Max(1, threshold.value)
  }

  lemma {:induction false} AlertsFrom(c: Counter, history: seq<Call>, threshold: Option<int>)
    requires InRun(c, threshold)
    ensures var end := CounterFrom(c, history, threshold);
            && end.fired == c.fired + Fires(history, c, threshold)
            && end.total == c.total + Failures(history)
            && end.stored + Unsaved(history) == c.stored + Failures(history)
    decreases history
  {
    var least := if threshold.Some? then Max(1, threshold.value) else 1;
    if history == [] {
      ClosedRun(c.consecutive, [], least);
      assert Closed(c.consecutive) + [] == Closed(c.consecutive);
    } else {
      ClosedRun(c.consecutive, Outages(history[1..], 0), least);
      AlertsFrom(CounterStep(c, history[0], threshold), history[1..], threshold);
    }
  }

  lemma ClosedRun(run: nat, rest: seq<nat>, least: int)
    requires least >= 1
    ensures Lasting(Closed(run) + rest, least) == Lasting(rest, least) + if run >= least then 1 else 0
  {
    assert ([run] + rest)[1..] == rest && [] + rest == rest;
  }

  /** The alerts still to come: one per lasting outage, except one already alerted for. */
  ghost function Fires(history: seq<Call>, c: Counter, threshold: Option<int>): int {
    if threshold.None? then 0
    else Lasting(Outages(history, c.consecutive), Max(1, threshold.value)) - if c.alerted then 1 else 0
  }

  /**
   Over any history the callback fires exactly once per maximal failure run of length
   at least max(1, threshold), never without a threshold, and the stored counter grows
   by one per failure whose persist worked.
   */
  lemma OneAlertPerOutage(history: seq<Call>, threshold: Option<int>, stored: nat)
    ensures var end := CounterRun(history, threshold, stored);
            && end.fired == (if threshold.Some? then Lasting(Outages(history, 0), Max(1, threshold.value)) else 0)
            && end.total == Failures(history)
            && end.stored + Unsaved(history) == stored + Failures(history)
  {
    assert history[..0] == [] && history[0..] == history;
    FrontIsBack(history, 0, threshold, stored);
    AlertsFrom(Counter(0, 0, false, stored, 0), history, threshold);
  }

  // ----- DailyFallbackBudget -----

  type Day = int

  function Get(m: map<Day, nat>, day: Day): nat {
    if day in m then m[day] else 0
  }

  /**
   The daily budget: the process's own date and spend, and the ops_counters rows it
   persists to (`spentOn`), which outlive the process. `grants` and `lost` record, per
   day, the calls granted and the grants whose persist raised.
   */
  datatype Budget = Budget(date: Option<Day>, spent: int, spentOn: map<Day, nat>,
                           grants: map<Day, nat>, lost: map<Day, nat>)

  const FRESH_BUDGET := Budget(None, 0, map[], map[], map[])

  /** What a budget meets: a call (its day, and whether each database access raises) or a process restart. */
  datatype BudgetEvent = Consume(day: Day, readFails: bool, persistFails: bool) | Restarted

  function Bump(m: map<Day, nat>, day: Day): map<Day, nat> {
    m[day := Get(m, day) + 1]
  }

  /** The spend the call sees: the process's own, or the persisted one on the first call of a day. */
  function SpendSeen(b: Budget, day: Day, readFails: bool): int {
    if b.date == Some(day) then b.spent else if readFails then 0 else Get(b.spentOn, day)
  }

  /** The process turned to the day of the call. */
  function Turned(b: Budget, day: Day, readFails: bool): Budget {
    b.(date := Some(day), spent := SpendSeen(b, day, readFails))
  }

  function Granted(b: Budget, day: Day, persistFails: bool): Budget {
    var c := b.(spent := b.spent + 1, grants := Bump(b.grants, day));
    if persistFails then c.(lost := Bump(b.lost, day)) else c.(spentOn := Bump(b.spentOn, day))
  }

  function BudgetStep(b: Budget, e: BudgetEvent, maxPerDay: int): Budget {
    match e
    case Restarted => b.(date := None, spent := 0)
    case Consume(day, readFails, persistFails) =>
      var c := Turned(b, day, readFails);
      if c.spent < maxPerDay then Granted(c, day, persistFails) else c
  }

  function BudgetRun(events: seq<BudgetEvent>, maxPerDay: int): Budget {
    if events == [] then FRESH_BUDGET
    else BudgetStep(BudgetRun(events[..|events| - 1], maxPerDay), events[|events| - 1], maxPerDay)
  }

  lemma NextEvent(events: seq<BudgetEvent>, e: BudgetEvent, maxPerDay: int)
    ensures BudgetRun(events + [e], maxPerDay) == BudgetStep(BudgetRun(events, maxPerDay), e, maxPerDay)
  {
    assert (events + [e])[..|events|] == events;
  }

  /** `events` records what the budget has met, in this process and those before it. */
  class DailyFallbackBudget {
    const maxPerDay: int
    var date: Option<Day>
    var spent: int
    var spentOn: map<Day, nat>
    ghost var grants: map<Day, nat>
    ghost var lost: map<Day, nat>
    ghost var events: seq<BudgetEvent>

    ghost function View(): Budget
      reads this
    {
      Budget(date, spent, spentOn, grants, lost)
    }

    ghost predicate Valid()
      reads this
    {
      View() == BudgetRun(events, maxPerDay)
    }

    constructor (maxPerDay: int)
      ensures Valid() && events == [] && grants == map[] && this.maxPerDay == maxPerDay
    {
      this.maxPerDay := maxPerDay;
      date, spent, spentOn, grants, lost, events := None, 0, map[], map[], map[], [];
    }

    /** A new process: whatever it spent before, it goes by the stored counters now, and they are as they were. */
    method Restart()
      requires Valid()
      modifies this
      ensures Valid() && events == old(events) + [Restarted]
      ensures spentOn == old(spentOn) && grants == old(grants) && lost == old(lost)
      ensures forall day :: SpendSeen(View(), day, false) == Get(spentOn, day)
    {
      NextEvent(events, Restarted, maxPerDay);
      date, spent, events := None, 0, events + [Restarted];
    }

    /** The first call of a day starts from the stored spend, or from none if it cannot be read. */
    method Turn(today: Day, readFails: bool)
      modifies this`date, this`spent
      ensures View() == Turned(old(View()), today, readFails)
    {
      if date != Some(today) {
        date := Some(today);
        spent := 0;
        if !readFails {
          spent := Get(spentOn, today);
        }
      }
    }

    /** One more call spent; the process counts it even if its persist raises. */
    method Spend(today: Day, persistFails: bool)
      modifies this`spent, this`grants, this`spentOn, this`lost
      ensures View() == Granted(old(View()), today, persistFails)
    {
      spent := spent + 1;
      grants := Bump(grants, today);
      if !persistFails {
        spentOn := Bump(spentOn, today);
      } else {
        lost := Bump(lost, today);
      }
    }

    /** One call on day `today`; the clock is free to go backwards. */
    method TryConsume(today: Day, readFails: bool, persistFails: bool) returns (granted: bool)
      requires Valid()
      modifies this
      ensures Valid() && events == old(events) + [Consume(today, readFails, persistFails)]
      ensures granted <==> SpendSeen(old(View()), today, readFails) < maxPerDay
      ensures var seen := if old(date) == Some(today) then old(spent) else if readFails then 0 else Get(old(spentOn), today);
              (granted <==> seen < maxPerDay) && date == Some(today) && spent == if granted then seen + 1 else seen
      ensures grants == if granted then Bump(old(grants), today) else old(grants)
      ensures spentOn == if granted && !persistFails then Bump(old(spentOn), today) else old(spentOn)
      ensures lost == if granted && persistFails then Bump(old(lost), today) else old(lost)
    {
      NextEvent(events, Consume(today, readFails, persistFails), maxPerDay);
      events := events + [Consume(today, readFails, persistFails)];
      Turn(today, readFails);
      granted := spent < maxPerDay;
      if granted {
        Spend(today, persistFails);
      }
    }
  }

  // ----- how much a day can spend -----

  /** A call that starts a day for its process without being able to read what the day has spent. */
  predicate BlindStart(b: Budget, e: BudgetEvent, day: Day) {
    e.Consume? && e.day == day && e.readFails && b.date != Some(day)
  }

  function BlindStarts(events: seq<BudgetEvent>, maxPerDay: int, day: Day): nat {
    if events == [] then 0
    else
      var front := events[..|events| - 1];
      BlindStarts(front, maxPerDay, day) + if BlindStart(BudgetRun(front, maxPerDay), events[|events| - 1], day) then 1 else 0
  }

  /** What the process may still grant on the day without another blind start. */
  function LeftToday(b: Budget, maxPerDay: int, day: Day): nat {
    if b.date == Some(day) then Max(0, maxPerDay - b.spent) else 0
  }

  /** One full budget, and one more for each blind start. */
  function Allowance(starts: nat, cap: nat): (a: nat)
    ensures cap <= a
  {
    if starts == 0 then cap else Allowance(starts - 1, cap) + cap
  }

  lemma {:induction false} AllowanceIs(starts: nat, cap: nat)
    ensures Allowance(starts, cap) == (1 + starts) * cap
  {
    if starts > 0 {
      AllowanceIs(starts - 1, cap);
      assert (1 + starts) * cap == starts * cap + cap;
    }
  }

  lemma TurnedWithinAllowance(b: Budget, today: Day, readFails: bool, maxPerDay: int, day: Day, allowance: nat)
    requires Get(b.spentOn, day) + LeftToday(b, maxPerDay, day) <= allowance && Max(0, maxPerDay) <= allowance
    requires b.date == Some(day) ==> b.spent >= 0
    ensures var c := Turned(b, today, readFails);
            && Get(c.spentOn, day) + LeftToday(c, maxPerDay, day)
            <= allowance + (if today == day && readFails && b.date != Some(day) then Max(0, maxPerDay) else 0)
            && (c.date == Some(day) ==> c.spent >= 0)
  {
  }

  lemma BumpAdds(m: map<Day, nat>, today: Day, day: Day)
    ensures Get(Bump(m, today), day) == Get(m, day) + if today == day then 1 else 0
  {
  }

  lemma GrantedWithinAllowance(c: Budget, today: Day, persistFails: bool, maxPerDay: int, day: Day)
    requires c.date == Some(today) && c.spent < maxPerDay && (today == day ==> c.spent >= 0)
    ensures var t := Granted(c, today, persistFails);
            && Get(t.spentOn, day) + LeftToday(t, maxPerDay, day) <= Get(c.spentOn, day) + LeftToday(c, maxPerDay, day)
            && (t.date == Some(day) ==> t.spent >= 0)
            && Get(t.spentOn, day) + Get(t.lost, day) - Get(t.grants, day)
            == Get(c.spentOn, day) + Get(c.lost, day) - Get(c.grants, day)
  {
    BumpAdds(c.grants, today, day);
    BumpAdds(c.spentOn, today, day);
    BumpAdds(c.lost, today, day);
  }

  /** What the day has spent and what is left of it stay within an allowance, and every grant is persisted or lost. */
  ghost predicate Within(b: Budget, maxPerDay: int, day: Day, allowance: nat) {
    && Get(b.spentOn, day) + LeftToday(b, maxPerDay, day) <= allowance
    && (b.date == Some(day) ==> b.spent >= 0)
    && Get(b.spentOn, day) + Get(b.lost, day) == Get(b.grants, day)
  }

  /** One event uses what is left of the day, or opens one more full budget by a blind start. */
  lemma EventWithinAllowance(b: Budget, e: BudgetEvent, maxPerDay: int, day: Day, allowance: nat)
    requires Within(b, maxPerDay, day, allowance) && Max(0, maxPerDay) <= allowance
    ensures Within(BudgetStep(b, e, maxPerDay), maxPerDay, day,
                   allowance + if BlindStart(b, e, day) then Max(0, maxPerDay) else 0)
  {
    if e.Consume? {
      var c := Turned(b, e.day, e.readFails);
      TurnedWithinAllowance(b, e.day, e.readFails, maxPerDay, day, allowance);
      if c.spent < maxPerDay {
        GrantedWithinAllowance(c, e.day, e.persistFails, maxPerDay, day);
      }
    }
  }

  lemma {:induction false} BudgetSurvivesRestarts(events: seq<BudgetEvent>, maxPerDay: int, day: Day)
    ensures Within(BudgetRun(events, maxPerDay), maxPerDay, day,
                   Allowance(BlindStarts(events, maxPerDay, day), Max(0, maxPerDay)))
  {
    if events != [] {
      var front, e := events[..|events| - 1], events[|events| - 1];
      var starts, cap := BlindStarts(front, maxPerDay, day), Max(0, maxPerDay);
      BudgetSurvivesRestarts(front, maxPerDay, day);
      EventWithinAllowance(BudgetRun(front, maxPerDay), e, maxPerDay, day, Allowance(starts, cap));
      assert Allowance(starts + 1, cap) == Allowance(starts, cap) + cap;
    }
  }

  /**
   Over any calls, day changes (backwards included), restarts, unreadable counters and
   failed persists: a day's persisted spend is at most the cap, once more for each blind
   start of that day, and its grants exceed that by at most the persists lost that day.
   With readable counters there is no blind start.
   */
  lemma GrantsPerDay(events: seq<BudgetEvent>, maxPerDay: int, day: Day)
    ensures var b, cap := BudgetRun(events, maxPerDay), Max(0, maxPerDay);
            && Get(b.spentOn, day) <= (1 + BlindStarts(events, maxPerDay, day)) * cap
            && Get(b.grants, day) <= (1 + BlindStarts(events, maxPerDay, day)) * cap + Get(b.lost, day)
  {
    BudgetSurvivesRestarts(events, maxPerDay, day);
    AllowanceIs(BlindStarts(events, maxPerDay, day), Max(0, maxPerDay));
  }

  lemma {:induction false} ReadableHasNoBlindStart(events: seq<BudgetEvent>, maxPerDay: int, day: Day)
    requires forall e | e in events && e.Consume? && e.day == day :: !e.readFails
    ensures BlindStarts(events, maxPerDay, day) == 0
  {
    if events != [] {
      assert events[|events| - 1] in events;
      ReadableHasNoBlindStart(events[..|events| - 1], maxPerDay, day);
    }
  }

  lemma OneMoreStart(events: seq<BudgetEvent>, e: BudgetEvent, maxPerDay: int, day: Day)
    ensures BlindStarts(events + [e], maxPerDay, day)
         == BlindStarts(events, maxPerDay, day) + if BlindStart(BudgetRun(events, maxPerDay), e, day) then 1 else 0
  {
    assert (events + [e])[..|events|] == events;
  }

  /** The rest of day 0's budget, call by call. */
  lemma {:induction false} SpendTheRest(events: seq<BudgetEvent>, cap: nat) returns (more: seq<BudgetEvent>)
    requires BudgetRun(events, cap).date == Some(0) && 0 <= BudgetRun(events, cap).spent <= cap
    ensures BlindStarts(more, cap, 0) == BlindStarts(events, cap, 0)
    ensures Get(BudgetRun(more, cap).grants, 0) == Get(BudgetRun(events, cap).grants, 0) + cap - BudgetRun(events, cap).spent
    ensures Get(BudgetRun(more, cap).lost, 0) == Get(BudgetRun(events, cap).lost, 0)
    decreases cap - BudgetRun(events, cap).spent
  {
    if BudgetRun(events, cap).spent == cap {
      more := events;
    } else {
      NextEvent(events, Consume(0, false, false), cap);
      OneMoreStart(events, Consume(0, false, false), cap, 0);
      more := SpendTheRest(events + [Consume(0, false, false)], cap);
    }
  }

  /** A first call in a new process, blind or not, and the rest of the budget it sees. */
  lemma SpendBlindly(events: seq<BudgetEvent>, cap: nat, blind: bool) returns (more: seq<BudgetEvent>)
    requires blind || Get(BudgetRun(events, cap).spentOn, 0) == 0
    ensures BlindStarts(more, cap, 0) == BlindStarts(events, cap, 0) + if blind then 1 else 0
    ensures Get(BudgetRun(more, cap).grants, 0) == Get(BudgetRun(events, cap).grants, 0) + cap
    ensures Get(BudgetRun(more, cap).lost, 0) == Get(BudgetRun(events, cap).lost, 0)
  {
    NextEvent(events, Restarted, cap);
    OneMoreStart(events, Restarted, cap, 0);
    var anew := events + [Restarted];
    NextEvent(anew, Consume(0, blind, false), cap);
    OneMoreStart(anew, Consume(0, blind, false), cap, 0);
    more := SpendTheRest(anew + [Consume(0, blind, false)], cap);
  }

  /** The bound is reached, for every cap and every number of blind starts: each one grants a full budget. */
  lemma {:induction false} EachBlindStartGrantsABudget(starts: nat, cap: nat) returns (events: seq<BudgetEvent>)
    ensures BlindStarts(events, cap, 0) == starts && Get(BudgetRun(events, cap).lost, 0) == 0
    ensures Get(BudgetRun(events, cap).grants, 0) == (1 + starts) * cap
  {
    AllowanceIs(starts, cap);
    if starts == 0 {
      events := SpendBlindly([], cap, false);
    } else {
      var before := EachBlindStartGrantsABudget(starts - 1, cap);
      AllowanceIs(starts - 1, cap);
      events := SpendBlindly(before, cap, true);
    }
  }

  // ----- call_llm -----

  /** Where one salience call went: the local model, the API fallback, or nowhere (it raised). */
  datatype Route = Local | Api | Unavailable

  /**
   The routing closure of the triage daemon. `apiCalls` records, per day, the calls
   sent to the API fallback since the router and its fresh budget were built.
   */
  class FallbackRouter {
    const fallbackIsApi: bool
    const primaryIsLocal: bool
    const fallbackThreshold: int
    const budget: DailyFallbackBudget
    const counter: AvailabilityCounter
    var usedFallback: bool
    ghost var apiCalls: map<Day, nat>

    ghost predicate Valid()
      reads this, budget
    {
      budget.Valid() && apiCalls == budget.grants
    }

    constructor (fallbackIsApi: bool, primaryIsLocal: bool, fallbackThreshold: int,
                 budget: DailyFallbackBudget, counter: AvailabilityCounter, usedFallback: bool)
      requires budget.Valid() && budget.grants == map[]
      ensures Valid() && this.usedFallback == usedFallback && this.budget == budget && this.counter == counter
    {
      this.fallbackIsApi, this.primaryIsLocal := fallbackIsApi, primaryIsLocal;
      this.fallbackThreshold, this.budget, this.counter := fallbackThreshold, budget, counter;
      this.usedFallback, apiCalls := usedFallback, map[];
    }

    /**
     One call. Every call that reaches the API used exactly one grant, no other call
     used any, the fallback is sticky, and an exhausted budget raises instead of routing.
     */
    method CallLlm(today: Day, resolveFails: bool, readFails: bool, persistFails: bool) returns (route: Route)
      requires Valid()
      modifies this`usedFallback, this`apiCalls, budget
      ensures Valid()
      ensures usedFallback <==>
                || old(usedFallback)
                || (fallbackIsApi && primaryIsLocal && counter.consecutive >= fallbackThreshold && !resolveFails)
      ensures route == Api <==> usedFallback && SpendSeen(old(budget.View()), today, readFails) < budget.maxPerDay
      ensures route == Local <==>
                !old(usedFallback) && !(fallbackIsApi && primaryIsLocal && counter.consecutive >= fallbackThreshold)
      ensures budget.grants == if route == Api then Bump(old(budget.grants), today) else old(budget.grants)
      ensures !usedFallback ==> budget.View() == old(budget.View())
    {
      if fallbackIsApi && primaryIsLocal && !usedFallback && counter.consecutive >= fallbackThreshold {
        if resolveFails {
          return Unavailable;
        }
        usedFallback := true;
      }
      if usedFallback {
        var granted := budget.TryConsume(today, readFails, persistFails);
        if !granted {
          return Unavailable;
        }
        apiCalls := Bump(apiCalls, today);
        return Api;
      }
      return Local;
    }
  }

  // ----- the promoter's swap -----

  /** What became of one evaluation of a light alert: an answer (parsed or not), or a transport failure. */
  datatype Evaluation = Answered(parsed: bool) | EndpointDown

  /**
   The model handles of the promoter's loop. The alert gate and the secretary that
   composes have a handle each. `running` ends when an exception leaves the loop.
   */
  class PromoterFallback {
    const fallbackIsApi: bool
    const primaryIsLocal: bool
    const fallbackThreshold: int
    const budget: DailyFallbackBudget
    const counter: AvailabilityCounter
    const atStart: bool
    var usedFallback: bool
    var secretaryOnFallback: bool
    var running: bool

    /** Both handles agree, and while the loop runs the swap is made as the counter's history demands. */
    ghost predicate Valid()
      reads this, counter, budget
    {
      && counter.Threshold() == Some(fallbackThreshold) && counter.Valid() && budget.Valid()
      && secretaryOnFallback == usedFallback
      && (running ==>
            usedFallback == (atStart || (fallbackIsApi && primaryIsLocal
                                         && Swapped(counter.history, fallbackThreshold, counter.initial))))
    }

    /** The startup probe may already have resolved to the fallback. */
    constructor (fallbackIsApi: bool, primaryIsLocal: bool, fallbackThreshold: int, budget: DailyFallbackBudget,
                 counter: AvailabilityCounter, atStart: bool)
      requires counter.Threshold() == Some(fallbackThreshold) && counter.Valid() && counter.history == [] && budget.Valid()
      ensures Valid() && running && usedFallback == atStart && this.counter == counter && this.budget == budget
      ensures this.fallbackIsApi == fallbackIsApi && this.primaryIsLocal == primaryIsLocal && this.atStart == atStart
    {
      this.fallbackIsApi, this.primaryIsLocal, this.fallbackThreshold := fallbackIsApi, primaryIsLocal, fallbackThreshold;
      this.budget, this.counter, this.atStart := budget, counter, atStart;
      usedFallback, secretaryOnFallback, running := atStart, atStart, true;
    }

    /** alert_evaluator: a call on the fallback needs a grant; without one, or without the endpoint, it raises. */
    method Evaluate(today: Day, readFails: bool, persistFails: bool, answer: Evaluation) returns (raised: bool)
      requires Valid() && running
      modifies budget, counter
      ensures Valid()
      ensures raised <==> answer.EndpointDown?
                          || (usedFallback && SpendSeen(old(budget.View()), today, readFails) >= budget.maxPerDay)
      ensures budget.grants == if usedFallback && SpendSeen(old(budget.View()), today, readFails) < budget.maxPerDay
                               then Bump(old(budget.grants), today) else old(budget.grants)
      ensures counter.history == if !raised && answer.parsed then old(counter.history) + [Success] else old(counter.history)
    {
      if usedFallback {
        var granted := budget.TryConsume(today, readFails, persistFails);
        if !granted {
          return true;
        }
      }
      if answer.EndpointDown? {
        return true;
      }
      if answer.parsed {
        OneMoreCall(counter.history, Success, fallbackThreshold, counter.initial);
        counter.RecordSuccess();
      }
      return false;
    }

    /**
     The loop's handler of a transport failure: count it, then, if the run is long enough,
     resolve the global model and swap both handles. A resolution that raises leaves the
     handler, and with it the loop: the daemon ends, unswapped.
     */
    method EndpointFails(persistFails: bool, resolveFails: bool)
      requires Valid() && running
      modifies this`usedFallback, this`secretaryOnFallback, this`running, counter
      ensures Valid() && counter.history == old(counter.history) + [Failure(!persistFails)]
      ensures var engages := fallbackIsApi && primaryIsLocal && !old(usedFallback) && TrailingRun(counter.history) >= fallbackThreshold;
              && (usedFallback <==> old(usedFallback) || (engages && !resolveFails))
              && (running <==> !(engages && resolveFails))
    {
      OneMoreCall(counter.history, Failure(!persistFails), fallbackThreshold, counter.initial);
      CounterInRun(counter.history, Some(fallbackThreshold), counter.initial);
      counter.RecordFailure(persistFails);
      if fallbackIsApi && primaryIsLocal && !usedFallback && counter.consecutive >= fallbackThreshold {
        if resolveFails {
          running := false;
          return;
        }
        usedFallback := true;
        secretaryOnFallback := true;
      }
    }
  }

  /** Some failure found the consecutive count at the threshold. */
  ghost predicate Swapped(history: seq<Call>, threshold: int, stored: nat) {
    if history == [] then false
    else
      || Swapped(history[..|history| - 1], threshold, stored)
      || (history[|history| - 1].Failure? && CounterRun(history, Some(threshold), stored).consecutive >= threshold)
  }

  lemma OneMoreCall(front: seq<Call>, last: Call, threshold: int, stored: nat)
    ensures CounterRun(front + [last], Some(threshold), stored)
         == CounterStep(CounterRun(front, Some(threshold), stored), last, Some(threshold))
    ensures Swapped(front + [last], threshold, stored) <==>
              || Swapped(front, threshold, stored)
              || (last.Failure? && CounterRun(front, Some(threshold), stored).consecutive + 1 >= threshold)
  {
    assert (front + [last])[..|front|] == front;
  }

  lemma {:induction false} AlertedOnce(history: seq<Call>, threshold: int, stored: nat)
    ensures Swapped(history, threshold, stored) <==> CounterRun(history, Some(threshold), stored).fired > 0
    ensures CounterRun(history, Some(threshold), stored).alerted ==> CounterRun(history, Some(threshold), stored).fired > 0
  {
    if history != [] {
      AlertedOnce(history[..|history| - 1], threshold, stored);
    }
  }

  /**
   The promoter swaps to the fallback exactly when the operator has been alerted, that is
   when some failure run lasted max(1, threshold) failures; and it never swaps back.
   */
  lemma SwapsExactlyOnOutage(history: seq<Call>, threshold: int, stored: nat)
    ensures Swapped(history, threshold, stored) <==> CounterRun(history, Some(threshold), stored).fired > 0
    ensures Swapped(history, threshold, stored) <==> Lasting(Outages(history, 0), Max(1, threshold)) > 0
  {
    AlertedOnce(history, threshold, stored);
    OneAlertPerOutage(history, Some(threshold), stored);
  }
}
