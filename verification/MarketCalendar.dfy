/**
 Trading sessions (tradingagents/dataflows/market_calendar.py). A date is a day
 number with day 0 a Monday; the month and day of month of a day number come from
 a calendar function.
 */
module MarketCalendar {

  type Calendar = int -> (int, int)

  const DEFAULT_FIXED_CLOSURES: set<(int, int)> := {(1, 1), (5, 1), (6, 19), (7, 4), (10, 1), (12, 25)}

  predicate IsAllowedMarketClosure(day: int, cal: Calendar) {
    day % 7 >= 5 || cal(day) in DEFAULT_FIXED_CLOSURES
  }

  /** The days of [start, end) on which the market is open (or, with `closures`, closed), in order. */
  function DaysWhere(start: int, end: int, cal: Calendar, closures: bool): seq<int>
    requires start <= end
    decreases end - start
  {
    if start == end then []
    else
      var rest := DaysWhere(start, end - 1, cal, closures);
      if IsAllowedMarketClosure(end - 1, cal) == closures then rest + [end - 1] else rest
  }

  lemma {:induction false} DaysMembership(start: int, end: int, cal: Calendar, closures: bool)
    requires start <= end
    ensures forall d :: d in DaysWhere(start, end, cal, closures) <==>
              start <= d < end && IsAllowedMarketClosure(d, cal) == closures
    decreases end - start
  {
    if start < end {
      DaysMembership(start, end - 1, cal, closures);
    }
  }

  /** No Saturday, no Sunday and no fixed holiday is a session, and every other day of the window is one. */
  predicate IsSession(d: int, cal: Calendar) {
    && d % 7 != 5 && d % 7 != 6
    && cal(d) != (1, 1) && cal(d) != (5, 1) && cal(d) != (6, 19) && cal(d) != (7, 4) && cal(d) != (10, 1) && cal(d) != (12, 25)
  }

  lemma SessionsMean(start: int, end: int, cal: Calendar)
    requires start <= end
    ensures forall d :: d in DaysWhere(start, end, cal, false) <==> start <= d < end && IsSession(d, cal)
    ensures forall d :: d in DaysWhere(start, end, cal, true) <==> start <= d < end && !IsSession(d, cal)
  {
    DaysMembership(start, end, cal, false);
    DaysMembership(start, end, cal, true);
  }

  lemma {:induction false} DaysInOrder(start: int, end: int, cal: Calendar, closures: bool)
    requires start <= end
    ensures forall i, j | 0 <= i < j < |DaysWhere(start, end, cal, closures)| ::
              DaysWhere(start, end, cal, closures)[i] < DaysWhere(start, end, cal, closures)[j]
    decreases end - start
  {
    if start < end {
      DaysInOrder(start, end - 1, cal, closures);
      var rest := DaysWhere(start, end - 1, cal, closures);
      DaysMembership(start, end - 1, cal, closures);
      assert forall i | 0 <= i < |rest| :: rest[i] in rest;
    }
  }

  method ExpectedTradingSessions(start: int, end: int, cal: Calendar) returns (sessions: seq<int>)
    requires start <= end
    ensures sessions == DaysWhere(start, end + 1, cal, false)
    ensures forall d :: d in sessions <==> start <= d <= end && IsSession(d, cal)
  {
    SessionsMean(start, end + 1, cal);
    sessions := [];
    for day := start to end + 1
      invariant sessions == DaysWhere(start, day, cal, false)
    {
      if !IsAllowedMarketClosure(day, cal) {
        sessions := sessions + [day];
      }
    }
  }

  method AllowedMissingSessions(start: int, end: int, cal: Calendar) returns (allowed: seq<int>)
    requires start <= end
    ensures allowed == DaysWhere(start, end + 1, cal, true)
    ensures forall d :: d in allowed <==> start <= d <= end && !IsSession(d, cal)
  {
    SessionsMean(start, end + 1, cal);
    allowed := [];
    for day := start to end + 1
      invariant allowed == DaysWhere(start, day, cal, true)
    {
      if IsAllowedMarketClosure(day, cal) {
        allowed := allowed + [day];
      }
    }
  }

  /** Every day of the window is in exactly one of the two lists. */
  lemma SessionsPartitionWindow(start: int, end: int, cal: Calendar)
    requires start <= end
    ensures |DaysWhere(start, end, cal, false)| + |DaysWhere(start, end, cal, true)| == end - start
    ensures forall d :: start <= d < end <==>
              (d in DaysWhere(start, end, cal, false)) != (d in DaysWhere(start, end, cal, true))
  {
    SessionCounts(start, end, cal);
    DaysMembership(start, end, cal, false);
    DaysMembership(start, end, cal, true);
  }

  lemma {:induction false} SessionCounts(start: int, end: int, cal: Calendar)
    requires start <= end
    ensures |DaysWhere(start, end, cal, false)| + |DaysWhere(start, end, cal, true)| == end - start
    decreases end - start
  {
    if start < end {
      SessionCounts(start, end - 1, cal);
    }
  }
}
