/**
 Multi-provider OHLCV fusion (tradingagents/dataflows/market_fusion.py): the
 incremental fetch over a shrinking window returns what fetching everything and
 keeping the first provider per session would return.
 */
module MarketFusion {
  import opened Arithmetic
  import opened MarketCalendar
  import opened Outcomes

  datatype Row = Row(date: int, open: real, high: real, low: real, close: real, volume: real)

  datatype Bar = Bar(row: Row, source: string)

  /** A fetched frame: its normalized rows in time order, or one that normalization rejects. */
  datatype Frame = Unusable(reason: string) | Rows(rows: seq<Row>)

  datatype SourceFrame = SourceFrame(source: string, frame: Frame)

  datatype Snapshot = Snapshot(
    expected: seq<int>, missing: seq<int>, allowedMissing: seq<int>,
    errors: map<string, string>, bars: seq<Bar>)
  {
    function CoverageRatio(): real {
      if expected == [] then 1.0 else (|expected| - |missing|) as real / |expected| as real
    }
  }

  // ----- the reference: the first provider that has a session supplies its bar -----

  function RowFor(rows: seq<Row>, date: int): Option<Row> {
    if rows == [] then None
    else if rows[0].date == date then Some(rows[0])
    else RowFor(rows[1..], date)
  }

  function UsableRows(frame: Frame): seq<Row> {
    if frame.Rows? then frame.rows else []
  }

  function FirstBar(frames: seq<SourceFrame>, date: int): Option<Bar> {
    if frames == [] then None
    else
      match RowFor(UsableRows(frames[0].frame), date)
      case Some(row) => Some(Bar(row, frames[0].source))
      case None => FirstBar(frames[1..], date)
  }

  function BarsOf(expected: seq<int>, frames: seq<SourceFrame>): seq<Bar> {
    if expected == [] then []
    else
      var rest := BarsOf(expected[1..], frames);
      match FirstBar(frames, expected[0])
      case Some(bar) => [bar] + rest
      case None => rest
  }

  function MissingOf(expected: seq<int>, frames: seq<SourceFrame>): (missing: seq<int>)
    ensures forall d :: d in missing <==> d in expected && FirstBar(frames, d).None?
  {
    if expected == [] then []
    else
      var rest := MissingOf(expected[1..], frames);
      if FirstBar(frames, expected[0]).None? then [expected[0]] + rest else rest
  }

  function FusionErrors(frames: seq<SourceFrame>, errors: map<string, string>): map<string, string> {
    if frames == [] then errors
    else
      var last := frames[|frames| - 1];
      var before := FusionErrors(frames[..|frames| - 1], errors);
      match last.frame
      case Unusable(reason) => before[last.source := reason]
      case Rows(rows) => if rows == [] then before[last.source := "empty OHLCV frame"] else before
  }

  lemma {:induction false} FirstBarAppend(frames: seq<SourceFrame>, more: seq<SourceFrame>, date: int)
    ensures FirstBar(frames + more, date)
         == if FirstBar(frames, date).Some? then FirstBar(frames, date) else FirstBar(more, date)
  {
    if frames == [] {
      assert frames + more == more;
    } else {
      assert (frames + more)[1..] == frames[1..] + more;
      FirstBarAppend(frames[1..], more, date);
    }
  }

  lemma {:induction false} RowForAppend(rows: seq<Row>, more: seq<Row>, date: int)
    ensures RowFor(rows + more, date) == if RowFor(rows, date).Some? then RowFor(rows, date) else RowFor(more, date)
  {
    if rows == [] {
      assert rows + more == more;
    } else {
      assert (rows + more)[1..] == rows[1..] + more;
      RowForAppend(rows[1..], more, date);
    }
  }

  lemma {:induction false} SameBars(expected: seq<int>, f: seq<SourceFrame>, g: seq<SourceFrame>)
    requires forall d | d in expected :: FirstBar(f, d) == FirstBar(g, d)
    ensures BarsOf(expected, f) == BarsOf(expected, g)
    ensures MissingOf(expected, f) == MissingOf(expected, g)
  {
    if expected != [] {
      SameBars(expected[1..], f, g);
    }
  }

  // ----- fuse_source_frames -----

  /** The two comprehensions that end fuse_source_frames, read from the back. */
  method ReadBars(expected: seq<int>, frames: seq<SourceFrame>, barsByDate: map<int, Bar>)
    returns (bars: seq<Bar>, missing: seq<int>)
    requires Indexed(barsByDate, expected, frames)
    ensures bars == BarsOf(expected, frames) && missing == MissingOf(expected, frames)
  {
    bars, missing := [], [];
    var n := |expected|;
    while n > 0
      invariant 0 <= n <= |expected|
      invariant bars == BarsOf(expected[n..], frames)
      invariant missing == MissingOf(expected[n..], frames)
    {
      n := n - 1;
      assert expected[n..][0] == expected[n] && expected[n..][1..] == expected[n + 1..];
      if expected[n] in barsByDate {
        bars := [barsByDate[expected[n]]] + bars;
      } else {
        missing := [expected[n]] + missing;
      }
    }
    assert expected[0..] == expected;
  }

  method FuseSourceFrames(expected: seq<int>, frames: seq<SourceFrame>, allowedMissing: seq<int>,
                          providerErrors: map<string, string>)
    returns (s: Snapshot)
    ensures s.expected == expected && s.allowedMissing == allowedMissing
    ensures s.bars == BarsOf(expected, frames)
    ensures s.missing == MissingOf(expected, frames)
    ensures s.errors == FusionErrors(frames, providerErrors)
  {
    var barsByDate: map<int, Bar> := map[];
    var errors := providerErrors;
    for i := 0 to |frames|
      invariant Indexed(barsByDate, expected, frames[..i])
      invariant errors == FusionErrors(frames[..i], providerErrors)
    {
      var f := frames[i];
      assert frames[..i + 1] == frames[..i] + [f];
      assert frames[..i + 1][..i] == frames[..i];
      ghost var done := frames[..i];
      match f.frame {
        case Unusable(reason) => errors := errors[f.source := reason];
        case Rows(rows) =>
          if rows == [] {
            errors := errors[f.source := "empty OHLCV frame"];
          }
          assert rows[..0] == [];
          OneFrame(done, f.source, rows[..0]);
          for k := 0 to |rows|
            invariant Indexed(barsByDate, expected, done + [SourceFrame(f.source, Rows(rows[..k]))])
          {
            assert rows[..k + 1] == rows[..k] + [rows[k]];
            OneMoreRow(done, f.source, rows[..k], rows[k]);
            var bar := Bar(rows[k], f.source);
            if bar.row.date in expected && bar.row.date !in barsByDate {
              barsByDate := barsByDate[bar.row.date := bar];
            }
          }
          assert rows[..|rows|] == rows;
      }
      OneFrame(done, f.source, []);
    }
    assert frames[..|frames|] == frames;
    var bars, missing := ReadBars(expected, frames, barsByDate);
    s := Snapshot(expected, missing, allowedMissing, errors, bars);
  }

  /** The dictionary holds exactly the first bar of every expected session that has one. */
  ghost predicate Indexed(barsByDate: map<int, Bar>, expected: seq<int>, frames: seq<SourceFrame>) {
    && (forall d | d in barsByDate :: d in expected)
    && (forall d | d in expected ::
          FirstBar(frames, d) == if d in barsByDate then Some(barsByDate[d]) else None)
  }

  lemma OneFrame(done: seq<SourceFrame>, source: string, rows: seq<Row>)
    requires rows == []
    ensures forall d :: FirstBar(done + [SourceFrame(source, Rows(rows))], d) == FirstBar(done, d)
    ensures forall d, reason :: FirstBar(done + [SourceFrame(source, Unusable(reason))], d) == FirstBar(done, d)
  {
    forall d
      ensures FirstBar(done + [SourceFrame(source, Rows(rows))], d) == FirstBar(done, d)
    {
      FirstBarAppend(done, [SourceFrame(source, Rows(rows))], d);
    }
    forall d, reason
      ensures FirstBar(done + [SourceFrame(source, Unusable(reason))], d) == FirstBar(done, d)
    {
      FirstBarAppend(done, [SourceFrame(source, Unusable(reason))], d);
    }
  }

  lemma OneMoreRow(done: seq<SourceFrame>, source: string, rows: seq<Row>, row: Row)
    ensures forall d ::
              FirstBar(done + [SourceFrame(source, Rows(rows + [row]))], d) ==
              var before := FirstBar(done + [SourceFrame(source, Rows(rows))], d);
              if before.None? && d == row.date then Some(Bar(row, source)) else before
  {
    forall d
      ensures FirstBar(done + [SourceFrame(source, Rows(rows + [row]))], d) ==
              var before := FirstBar(done + [SourceFrame(source, Rows(rows))], d);
              if before.None? && d == row.date then Some(Bar(row, source)) else before
    {
      FirstBarAppend(done, [SourceFrame(source, Rows(rows))], d);
      FirstBarAppend(done, [SourceFrame(source, Rows(rows + [row]))], d);
      RowForAppend(rows, [row], d);
    }
  }

  // ----- providers and windows -----

  /**
   A provider holding fixed data: it answers a window with the restriction of its
   rows to that window, and raises when that restriction is empty. A provider may
   also be down (it always raises) or answer with a frame normalization rejects.
   */
  datatype Provider = Down(error: string) | Garbled(reason: string) | Data(rows: seq<Row>)

  function Restrict(rows: seq<Row>, lo: int, hi: int): seq<Row> {
    if rows == [] then []
    else
      var rest := Restrict(rows[1..], lo, hi);
      if lo <= rows[0].date <= hi then [rows[0]] + rest else rest
  }

  function Fetch(p: Provider, lo: int, hi: int): Result<Frame> {
    match p
    case Down(error) => Raised(error)
    case Garbled(reason) => Ok(Unusable(reason))
    case Data(rows) =>
      var inside := Restrict(rows, lo, hi);
      if inside == [] then Raised("no rows in window") else Ok(Rows(inside))
  }

  /** What asking the first k providers for one and the same window would collect. */
  function FetchFirst(order: seq<string>, k: nat, fetchers: map<string, Provider>, lo: int, hi: int): seq<SourceFrame>
    requires k <= |order|
  {
    if k == 0 then [] else FetchFirst(order, k - 1, fetchers, lo, hi) + FetchOne(order[k - 1], fetchers, lo, hi)
  }

  /** What asking every provider for the full window would collect. */
  function FetchAll(order: seq<string>, fetchers: map<string, Provider>, lo: int, hi: int): seq<SourceFrame> {
    FetchFirst(order, |order|, fetchers, lo, hi)
  }

  function FetchOne(name: string, fetchers: map<string, Provider>, lo: int, hi: int): seq<SourceFrame> {
    if name !in fetchers then []
    else
      match Fetch(fetchers[name], lo, hi)
      case Ok(frame) => [SourceFrame(name, frame)]
      case Raised(_) => []
  }

  lemma {:induction false} RestrictKeepsWindow(rows: seq<Row>, lo: int, hi: int, date: int)
    ensures RowFor(Restrict(rows, lo, hi), date) == if lo <= date <= hi then RowFor(rows, date) else None
  {
    if rows != [] {
      RestrictKeepsWindow(rows[1..], lo, hi, date);
    }
  }

  /** One provider's contribution to a session does not depend on the window, if the window holds the session. */
  lemma WindowIndependent(name: string, fetchers: map<string, Provider>, lo: int, hi: int, start: int, end: int, date: int)
    requires start <= lo && hi <= end && start <= date <= end
    ensures FirstBar(FetchOne(name, fetchers, lo, hi), date)
         == if lo <= date <= hi then FirstBar(FetchOne(name, fetchers, start, end), date) else None
  {
    if name in fetchers && fetchers[name].Data? {
      var rows := fetchers[name].rows;
      RestrictKeepsWindow(rows, lo, hi, date);
      RestrictKeepsWindow(rows, start, end, date);
      assert RowFor([], date) == None;
    }
  }

  method DateBounds(sessions: seq<int>) returns (lo: int, hi: int)
    requires sessions != []
    ensures lo in sessions && hi in sessions
    ensures forall d | d in sessions :: lo <= d <= hi
  {
    lo, hi := sessions[0], sessions[0];
    for i := 1 to |sessions|
      invariant lo in sessions && hi in sessions
      invariant forall k | 0 <= k < i :: lo <= sessions[k] <= hi
    {
      if sessions[i] < lo {
        lo := sessions[i];
      }
      if sessions[i] > hi {
        hi := sessions[i];
      }
    }
  }

  // ----- fetch_fused_market_snapshot -----

  const DEFAULT_ORDER: seq<string> := ["yfinance", "akshare", "futu", "polygon"]

  function ProviderOrder(providers: seq<string>): seq<string> {
    if providers == [] then DEFAULT_ORDER else providers
  }

  /** The provider's data hold a row of the day. */
  predicate HasDay(name: string, fetchers: map<string, Provider>, day: int) {
    name in fetchers && fetchers[name].Data? && exists k :: 0 <= k < |fetchers[name].rows| && fetchers[name].rows[k].date == day
  }

  /** The row is the data's first one of its day. */
  ghost predicate FirstOfDay(rows: seq<Row>, row: Row) {
    exists k :: 0 <= k < |rows| && rows[k] == row && forall j | 0 <= j < k :: rows[j].date != row.date
  }

  /** The bar comes from the first provider of the order whose data hold its session. */
  ghost predicate FirstHolder(order: seq<string>, fetchers: map<string, Provider>, bar: Bar) {
    && HasDay(bar.source, fetchers, bar.row.date) && FirstOfDay(fetchers[bar.source].rows, bar.row)
    && exists k :: 0 <= k < |order| && order[k] == bar.source && forall j | 0 <= j < k :: !HasDay(order[j], fetchers, bar.row.date)
  }

  ghost predicate Ascend(bars: seq<Bar>) {
    forall i, j | 0 <= i < j < |bars| :: bars[i].row.date < bars[j].row.date
  }

  lemma PrependInOrder(bar: Bar, rest: seq<Bar>)
    requires Ascend(rest) && forall i | 0 <= i < |rest| :: bar.row.date < rest[i].row.date
    ensures Ascend([bar] + rest)
  {
  }

  /**
   The snapshot on the providers' data alone: one bar for each session some provider holds, in
   order of sessions, from the first that holds it; the other sessions are missing.
   */
  ghost predicate FirstHoldersWin(s: Snapshot, order: seq<string>, fetchers: map<string, Provider>) {
    && (forall b | b in s.bars :: b.row.date in s.expected && FirstHolder(order, fetchers, b))
    && Ascend(s.bars)
    && (forall d :: d in s.missing <==> d in s.expected && forall name | name in order :: !HasDay(name, fetchers, d))
    && (forall d | d in s.expected && d !in s.missing :: exists b | b in s.bars :: b.row.date == d)
  }

  lemma {:induction false} RowForMeans(rows: seq<Row>, day: int)
    ensures match RowFor(rows, day)
            case None => forall k | 0 <= k < |rows| :: rows[k].date != day
            case Some(row) => row.date == day && FirstOfDay(rows, row)
  {
    if rows != [] && rows[0].date != day {
      RowForMeans(rows[1..], day);
      var found := RowFor(rows[1..], day);
      if found.Some? {
        var k :| 0 <= k < |rows[1..]| && rows[1..][k] == found.value && forall j | 0 <= j < k :: rows[1..][j].date != day;
        assert rows[k + 1] == found.value && forall j | 0 < j < k + 1 :: rows[j] == rows[1..][j - 1];
      } else {
        assert forall j | 0 < j < |rows| :: rows[j] == rows[1..][j - 1];
      }
    }
  }

  lemma FetchedDay(name: string, fetchers: map<string, Provider>, start: int, end: int, day: int)
    requires start <= day <= end
    ensures match FirstBar(FetchOne(name, fetchers, start, end), day)
            case None => !HasDay(name, fetchers, day)
            case Some(bar) => bar.source == name && bar.row.date == day && HasDay(name, fetchers, day)
                              && FirstOfDay(fetchers[name].rows, bar.row)
  {
    if name in fetchers && fetchers[name].Data? {
      var rows := fetchers[name].rows;
      RestrictKeepsWindow(rows, start, end, day);
      RowForMeans(rows, day);
      assert RowFor([], day) == None;
    }
  }

  /** What the first k providers have for the day: the bar of the first that holds it, or none. */
  ghost predicate HeldByFirst(order: seq<string>, k: nat, fetchers: map<string, Provider>, day: int, found: Option<Bar>)
    requires k <= |order|
  {
    match found
    case None => forall j | 0 <= j < k :: !HasDay(order[j], fetchers, day)
    case Some(bar) => bar.row.date == day && FirstHolder(order, fetchers, bar)
  }

  lemma HeldOneMore(order: seq<string>, k: nat, fetchers: map<string, Provider>, day: int, found: Option<Bar>, next: Option<Bar>)
    requires k < |order| && HeldByFirst(order, k, fetchers, day, found)
    requires match next
             case None => !HasDay(order[k], fetchers, day)
             case Some(bar) => bar.source == order[k] && bar.row.date == day && HasDay(bar.source, fetchers, day)
                               && FirstOfDay(fetchers[bar.source].rows, bar.row)
    ensures HeldByFirst(order, k + 1, fetchers, day, if found.Some? then found else next)
  {
  }

  lemma {:induction false} FetchedByFirst(order: seq<string>, k: nat, fetchers: map<string, Provider>, start: int, end: int, day: int)
    requires k <= |order| && start <= day <= end
    ensures HeldByFirst(order, k, fetchers, day, FirstBar(FetchFirst(order, k, fetchers, start, end), day))
  {
    if k > 0 {
      var before, one := FetchFirst(order, k - 1, fetchers, start, end), FetchOne(order[k - 1], fetchers, start, end);
      FetchedByFirst(order, k - 1, fetchers, start, end, day);
      FetchedDay(order[k - 1], fetchers, start, end, day);
      FirstBarAppend(before, one, day);
      HeldOneMore(order, k - 1, fetchers, day, FirstBar(before, day), FirstBar(one, day));
    }
  }

  /** Each frame's bar for a day is of that day. */
  ghost predicate Dated(expected: seq<int>, frames: seq<SourceFrame>) {
    forall d | d in expected && FirstBar(frames, d).Some? :: FirstBar(frames, d).value.row.date == d
  }

  lemma {:induction false} BarsMean(expected: seq<int>, frames: seq<SourceFrame>)
    requires Dated(expected, frames)
    ensures forall b | b in BarsOf(expected, frames) :: b.row.date in expected && FirstBar(frames, b.row.date) == Some(b)
    ensures forall d | d in expected && FirstBar(frames, d).Some? :: FirstBar(frames, d).value in BarsOf(expected, frames)
  {
    if expected != [] {
      BarsMean(expected[1..], frames);
    }
  }

  lemma {:induction false} BarsInOrder(expected: seq<int>, frames: seq<SourceFrame>)
    requires Dated(expected, frames) && forall i, j | 0 <= i < j < |expected| :: expected[i] < expected[j]
    ensures Ascend(BarsOf(expected, frames))
  {
    if expected != [] {
      var rest := BarsOf(expected[1..], frames);
      BarsInOrder(expected[1..], frames);
      BarsMean(expected[1..], frames);
      assert expected[0] in expected && forall d | d in expected[1..] :: d > expected[0];
      assert forall i | 0 <= i < |rest| :: rest[i] in rest && rest[i].row.date > expected[0];
      if FirstBar(frames, expected[0]).Some? {
        PrependInOrder(FirstBar(frames, expected[0]).value, rest);
      }
    }
  }

  lemma FirstHoldersMean(s: Snapshot, order: seq<string>, fetchers: map<string, Provider>, cal: Calendar, start: int, end: int)
    requires start <= end && FusesEverything(s, order, fetchers, cal, start, end)
    ensures FirstHoldersWin(s, order, fetchers)
  {
    var frames := FetchAll(order, fetchers, start, end);
    DaysMembership(start, end + 1, cal, false);
    DaysInOrder(start, end + 1, cal, false);
    forall d | d in s.expected
      ensures HeldByFirst(order, |order|, fetchers, d, FirstBar(frames, d))
    {
      FetchedByFirst(order, |order|, fetchers, start, end, d);
    }
    HeldMeans(s, frames, order, fetchers);
  }

  lemma HeldMeans(s: Snapshot, frames: seq<SourceFrame>, order: seq<string>, fetchers: map<string, Provider>)
    requires s.bars == BarsOf(s.expected, frames) && s.missing == MissingOf(s.expected, frames)
    requires forall i, j | 0 <= i < j < |s.expected| :: s.expected[i] < s.expected[j]
    requires forall d | d in s.expected :: HeldByFirst(order, |order|, fetchers, d, FirstBar(frames, d))
    ensures FirstHoldersWin(s, order, fetchers)
  {
    assert Dated(s.expected, frames);
    BarsMean(s.expected, frames);
    BarsInOrder(s.expected, frames);
    forall d | d in s.expected && d !in s.missing
      ensures exists b | b in s.bars :: b.row.date == d
    {
      assert FirstBar(frames, d).value in s.bars;
    }
    forall d | d in s.expected
      ensures d in s.missing <==> forall name | name in order :: !HasDay(name, fetchers, d)
    {
      assert HeldByFirst(order, |order|, fetchers, d, FirstBar(frames, d));
    }
  }

  /** The snapshot is the one a full-window fetch from every provider of `order` would fuse. */
  ghost predicate FusesEverything(s: Snapshot, order: seq<string>, fetchers: map<string, Provider>,
                                  cal: Calendar, start: int, end: int)
    requires start <= end
  {
    && s.expected == DaysWhere(start, end + 1, cal, false)
    && s.allowedMissing == DaysWhere(start, end + 1, cal, true)
    && s.bars == BarsOf(s.expected, FetchAll(order, fetchers, start, end))
    && s.missing == MissingOf(s.expected, FetchAll(order, fetchers, start, end))
  }

  /** The first `tried` providers were asked: the first prefix of the order that leaves nothing missing, or all. */
  ghost predicate StopsEarly(s: Snapshot, tried: nat, order: seq<string>, fetchers: map<string, Provider>, start: int, end: int) {
    && tried <= |order|
    && (tried < |order| ==> s.missing == [])
    && StillMissing(s.expected, order, tried, fetchers, start, end)
    && (forall name | name in s.errors :: name in order[..tried])
    && (forall b | b in s.bars :: b.source in order[..tried])
  }

  /**
   The incremental fetch equals fetching every provider over the full window and fusing. With
   no providers named, the order is yfinance, akshare, futu, polygon.
   */
  method FetchFusedMarketSnapshot(currDate: int, lookbackDays: nat, cal: Calendar, providers: seq<string>,
                                  fetchers: map<string, Provider>)
    returns (s: Snapshot, ghost tried: nat)
    ensures var order := if providers == [] then ["yfinance", "akshare", "futu", "polygon"] else providers;
            && FusesEverything(s, order, fetchers, cal, currDate - lookbackDays, currDate)
            && StopsEarly(s, tried, order, fetchers, currDate - lookbackDays, currDate)
            && FirstHoldersWin(s, order, fetchers)
    ensures forall d :: d in s.expected <==> currDate - lookbackDays <= d <= currDate && IsSession(d, cal)
  {
    s, tried := FetchInOrder(currDate - lookbackDays, currDate, cal, ProviderOrder(providers), fetchers);
    FirstHoldersMean(s, ProviderOrder(providers), fetchers, cal, currDate - lookbackDays, currDate);
    SessionsMean(currDate - lookbackDays, currDate + 1, cal);
  }

  method FetchInOrder(start: int, currDate: int, cal: Calendar, order: seq<string>, fetchers: map<string, Provider>)
    returns (s: Snapshot, ghost tried: nat)
    requires start <= currDate
    ensures FusesEverything(s, order, fetchers, cal, start, currDate)
    ensures StopsEarly(s, tried, order, fetchers, start, currDate)
  {
    var expected := ExpectedTradingSessions(start, currDate, cal);
    var allowedMissing := AllowedMissingSessions(start, currDate, cal);
    var frames: seq<SourceFrame> := [];
    var errors: map<string, string> := map[];
    var remaining := expected;
    DaysMembership(start, currDate + 1, cal, false);
    NothingFetched(expected);
    var i := 0;
    while i < |order|
      invariant 0 <= i <= |order|
      invariant Collected(expected, frames, errors, remaining, order, i, fetchers, start, currDate)
      invariant StillMissing(expected, order, i, fetchers, start, currDate)
    {
      if remaining == [] {
        break;
      }
      OneMorePrefix(expected, frames, order, i, fetchers, start, currDate);
      frames, errors, remaining := TryProvider(expected, frames, errors, remaining, allowedMissing,
                                               order, i, fetchers, start, currDate);
      i := i + 1;
    }
    tried := i;
    LaterProvidersAddNothing(expected, frames, order, i, fetchers, start, currDate);
    SameBars(expected, frames, FetchAll(order, fetchers, start, currDate));
    s := FuseSourceFrames(expected, frames, allowedMissing, errors);
    SourcesAmong(expected, frames, errors, order[..tried]);
  }

  /** One iteration of the provider loop, for provider i of the order. */
  method TryProvider(expected: seq<int>, frames: seq<SourceFrame>, errors: map<string, string>, remaining: seq<int>,
                     allowedMissing: seq<int>, order: seq<string>, i: nat,
                     fetchers: map<string, Provider>, start: int, end: int)
    returns (frames': seq<SourceFrame>, errors': map<string, string>, remaining': seq<int>)
    requires i < |order| && Collected(expected, frames, errors, remaining, order, i, fetchers, start, end)
    requires remaining != [] && forall d | d in expected :: start <= d <= end
    ensures Collected(expected, frames', errors', remaining', order, i + 1, fetchers, start, end)
  {
    frames', errors', remaining' := frames, errors, remaining;
    var provider := order[i];
    var lo, hi := start, end;
    if i > 0 && provider in fetchers {
      lo, hi := DateBounds(remaining);
    }
    ProviderStep(expected, frames, order, i, fetchers, lo, hi, start, end);
    if provider !in fetchers {
      errors' := errors[provider := "provider has no OHLCV fetcher"];
    } else {
      match Fetch(fetchers[provider], lo, hi) {
        case Raised(error) =>
          errors' := errors[provider := error];
        case Ok(frame) =>
          frames' := frames + [SourceFrame(provider, frame)];
          var partial := FuseSourceFrames(expected, frames', allowedMissing, errors);
          remaining' := partial.missing;
      }
    }
    assert frames' == frames + FetchOne(provider, fetchers, lo, hi);
    OneMoreSource(frames, errors, frames', errors', order, i);
  }

  lemma OneMoreSource(frames: seq<SourceFrame>, errors: map<string, string>, frames': seq<SourceFrame>,
                      errors': map<string, string>, order: seq<string>, i: nat)
    requires i < |order| && OnlyFrom(frames, errors, order[..i])
    requires forall f | f in frames' :: f in frames || f.source == order[i]
    requires forall name | name in errors' :: name in errors || name == order[i]
    ensures OnlyFrom(frames', errors', order[..i + 1])
  {
  }

  /** The frames gathered so far decide every session as the first i providers would over the full window. */
  ghost predicate Collected(expected: seq<int>, frames: seq<SourceFrame>, errors: map<string, string>,
                            remaining: seq<int>, order: seq<string>, i: nat, fetchers: map<string, Provider>,
                            start: int, end: int)
    requires i <= |order|
  {
    && SameFirstBars(expected, frames, FetchFirst(order, i, fetchers, start, end))
    && remaining == MissingOf(expected, frames)
    && OnlyFrom(frames, errors, order[..i])
  }

  /** Every shorter prefix of the provider order leaves some session missing. */
  ghost predicate StillMissing(expected: seq<int>, order: seq<string>, n: nat, fetchers: map<string, Provider>,
                               start: int, end: int)
    requires n <= |order|
  {
    forall k: nat | k < n :: MissingOf(expected, FetchFirst(order, k, fetchers, start, end)) != []
  }

  lemma OneMorePrefix(expected: seq<int>, frames: seq<SourceFrame>, order: seq<string>, i: nat,
                      fetchers: map<string, Provider>, start: int, end: int)
    requires i < |order| && StillMissing(expected, order, i, fetchers, start, end)
    requires SameFirstBars(expected, frames, FetchFirst(order, i, fetchers, start, end))
    requires MissingOf(expected, frames) != []
    ensures StillMissing(expected, order, i + 1, fetchers, start, end)
  {
    SameBars(expected, frames, FetchFirst(order, i, fetchers, start, end));
  }

  ghost predicate OnlyFrom(frames: seq<SourceFrame>, errors: map<string, string>, names: seq<string>) {
    && (forall name | name in errors :: name in names)
    && (forall f | f in frames :: f.source in names)
  }

  lemma SourcesAmong(expected: seq<int>, frames: seq<SourceFrame>, errors: map<string, string>, names: seq<string>)
    requires OnlyFrom(frames, errors, names)
    ensures forall name | name in FusionErrors(frames, errors) :: name in names
    ensures forall b | b in BarsOf(expected, frames) :: b.source in names
  {
    SourcesOf(expected, frames);
    ErrorSources(frames, errors);
  }

  ghost predicate SameFirstBars(expected: seq<int>, f: seq<SourceFrame>, g: seq<SourceFrame>) {
    forall d | d in expected :: FirstBar(f, d) == FirstBar(g, d)
  }

  lemma {:induction false} NothingFetched(expected: seq<int>)
    ensures MissingOf(expected, []) == expected
  {
    if expected != [] {
      NothingFetched(expected[1..]);
    }
  }

  /** Sessions outside the narrowed window already have their bar, so narrowing loses nothing. */
  lemma ProviderStep(expected: seq<int>, frames: seq<SourceFrame>, order: seq<string>, i: nat,
                     fetchers: map<string, Provider>, lo: int, hi: int, start: int, end: int)
    requires i < |order|
    requires SameFirstBars(expected, frames, FetchFirst(order, i, fetchers, start, end))
    requires forall d | d in expected :: start <= d <= end
    requires start <= lo && hi <= end
    requires forall d | d in expected && FirstBar(frames, d).None? :: lo <= d <= hi
    ensures SameFirstBars(expected, frames + FetchOne(order[i], fetchers, lo, hi),
                          FetchFirst(order, i + 1, fetchers, start, end))
  {
    forall d | d in expected
      ensures FirstBar(frames + FetchOne(order[i], fetchers, lo, hi), d)
           == FirstBar(FetchFirst(order, i + 1, fetchers, start, end), d)
    {
      FirstBarAppend(frames, FetchOne(order[i], fetchers, lo, hi), d);
      FirstBarAppend(FetchFirst(order, i, fetchers, start, end), FetchOne(order[i], fetchers, start, end), d);
      WindowIndependent(order[i], fetchers, lo, hi, start, end, d);
    }
  }

  /** When no session is missing, another provider's frame changes no first bar. */
  lemma CompleteStays(expected: seq<int>, frames: seq<SourceFrame>, g: seq<SourceFrame>, more: seq<SourceFrame>)
    requires MissingOf(expected, frames) == [] && SameFirstBars(expected, frames, g)
    ensures SameFirstBars(expected, frames, g + more)
  {
    forall d | d in expected
      ensures FirstBar(frames, d) == FirstBar(g + more, d)
    {
      assert d !in MissingOf(expected, frames);
      FirstBarAppend(g, more, d);
    }
  }

  lemma {:induction false} LaterProvidersAddNothing(expected: seq<int>, frames: seq<SourceFrame>, order: seq<string>,
                                                    i: nat, fetchers: map<string, Provider>, start: int, end: int)
    requires i <= |order|
    requires SameFirstBars(expected, frames, FetchFirst(order, i, fetchers, start, end))
    requires i < |order| ==> MissingOf(expected, frames) == []
    ensures SameFirstBars(expected, frames, FetchAll(order, fetchers, start, end))
    decreases |order| - i
  {
    if i < |order| {
      CompleteStays(expected, frames, FetchFirst(order, i, fetchers, start, end), FetchOne(order[i], fetchers, start, end));
      LaterProvidersAddNothing(expected, frames, order, i + 1, fetchers, start, end);
    }
  }

  lemma {:induction false} SourcesOf(expected: seq<int>, frames: seq<SourceFrame>)
    ensures forall b | b in BarsOf(expected, frames) :: exists f | f in frames :: f.source == b.source
  {
    if expected != [] {
      SourcesOf(expected[1..], frames);
      SourceOf(frames, expected[0]);
    }
  }

  lemma {:induction false} SourceOf(frames: seq<SourceFrame>, date: int)
    ensures FirstBar(frames, date).Some? ==> exists f | f in frames :: f.source == FirstBar(frames, date).value.source
  {
    if frames != [] {
      SourceOf(frames[1..], date);
      assert frames[0] in frames;
    }
  }

  /** The frame was rejected by normalization, or had no rows. */
  predicate GaveNothing(f: SourceFrame) {
    f.frame.Unusable? || f.frame.rows == []
  }

  /** A fusion reports the errors there were, and one more for each source whose frame gave nothing. */
  lemma {:induction false} ErrorSources(frames: seq<SourceFrame>, errors: map<string, string>)
    ensures forall name :: name in FusionErrors(frames, errors) <==>
              name in errors || exists f | f in frames :: f.source == name && GaveNothing(f)
    ensures forall name | name in errors && (forall f | f in frames && GaveNothing(f) :: f.source != name) ::
              FusionErrors(frames, errors)[name] == errors[name]
  {
    if frames != [] {
      var n := |frames| - 1;
      ErrorSources(frames[..n], errors);
      assert frames == frames[..n] + [frames[n]];
    }
  }

  /** Coverage is the share of expected sessions with a bar, in [0, 1], and full exactly when nothing is missing. */
  lemma CoverageOfFusion(expected: seq<int>, frames: seq<SourceFrame>, s: Snapshot)
    requires s.expected == expected && s.missing == MissingOf(expected, frames) && s.bars == BarsOf(expected, frames)
    ensures |s.bars| + |s.missing| == |expected|
    ensures expected == [] ==> s.CoverageRatio() == 1.0
    ensures IsShare(s.CoverageRatio(), |s.bars|, |expected|)
    ensures 0.0 <= s.CoverageRatio() <= 1.0
    ensures s.CoverageRatio() == 1.0 <==> s.missing == []
  {
    BarsAndMissing(expected, frames);
    if expected != [] {
      ShareIs(|s.bars|, |expected|);
      assert |expected| - |s.missing| == |s.bars|;
    }
  }

  /** The ratio is x of n. */
  ghost predicate IsShare(ratio: real, x: nat, n: nat) {
    ratio * n as real == x as real
  }

  lemma ShareIs(x: nat, n: nat)
    requires x <= n && n > 0
    ensures var ratio := x as real / n as real; IsShare(ratio, x, n) && 0.0 <= ratio <= 1.0 && (ratio == 1.0 <==> x == n)
  {
    RatioBounds(x, n);
  }

  lemma {:induction false} BarsAndMissing(expected: seq<int>, frames: seq<SourceFrame>)
    ensures |BarsOf(expected, frames)| + |MissingOf(expected, frames)| == |expected|
  {
    if expected != [] {
      BarsAndMissing(expected[1..], frames);
    }
  }
}
