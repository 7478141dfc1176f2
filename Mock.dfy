/**
 * The in-memory provider the orchestrator is exercised against: data preset
 * per upper-cased symbol, a deterministic synthetic bar series for symbols
 * without preset bars, and a weekday-only calendar.
 *
 * The wall clock of the default quote is the parameter `now`. Timestamps and
 * dates follow module Dates; 9:30 is minute 570 of the day.
 */
module Mock {
  import opened Common
  import opened Dates
  import opened Models
  import opened Quality
  import Cache
  import Calendar
  import Manager

  // ------------------------------------------------------------------
  // The synthetic series
  // ------------------------------------------------------------------

  /** `_timeframe_minutes`: the bar length of a timeframe, one minute for an unknown one. */
  function TimeframeMinutes(tf: string): (m: int)
    ensures m in {1, 5, 15, 60, 390}
    ensures tf !in {"5min", "15min", "1hour", "1day"} ==> m == 1
  {
    if tf == "1min" then 1
    else if tf == "5min" then 5
    else if tf == "15min" then 15
    else if tf == "1hour" then 60
    else if tf == "1day" then 390
    else 1
  }

  /** The minute of the day the session opens, 9:30. */
  const OpenMinute: int := 570

  /** The `i`-th synthetic bar of day `d` for `m`-minute bars. */
  function MockBar(d: int, m: int, i: int): Bar
  {
    var o := 150.0 + (i % 5) as real * 0.10;
    var h := o + 0.25;
    var l := o - 0.15;
    var c := o + 0.05;
    Bar(At(d, OpenMinute + i * m), o, h, l, c, 10000.0 + (i * 100) as real,
        Some((o + h + l + c) / 4.0), Some(50 + i))
  }

  /** The bars of one weekday: `390 // m` of them, `m` minutes apart from 9:30. */
  function DayBars(d: int, m: int): (r: seq<Bar>)
    requires m >= 1
    ensures |r| == 390 / m
    ensures forall i :: 0 <= i < |r| ==> r[i] == MockBar(d, m, i)
  {
    seq(390 / m, i => MockBar(d, m, i))
  }

  /** The bars of the weekdays of `[lo, hi]`, day after day. */
  function Generated(lo: Date, hi: int, m: int): seq<Bar>
    requires hi <= MaxOrdinal && m >= 1
    decreases hi - lo
  {
    if hi < lo then []
    else Generated(lo, hi - 1, m) + (if Weekday(hi) < 5 then DayBars(hi as Date, m) else [])
  }

  /** `_generate_bars`: stepping past `date.max` raises `OverflowError`. */
  function GenerateOutcome(start: Date, end: Date, tf: string): Outcome<seq<Bar>>
  {
    if start > end then Returned([])
    else if end == MaxOrdinal then Raised(OtherExc("OverflowError"))
    else Returned(Generated(start, end, TimeframeMinutes(tf)))
  }

  method GenerateBars(start: Date, end: Date, tf: string) returns (r: Outcome<seq<Bar>>)
    ensures r == GenerateOutcome(start, end, tf)
  {
    var bars: seq<Bar> := [];
    var current: Date := start;
    var m := TimeframeMinutes(tf);
    while current <= end
      invariant start <= current <= if start <= end then end + 1 else start
      invariant bars == Generated(start, current - 1, m)
      decreases end - current
    {
      if Weekday(current) >= 5 {
        if current == MaxOrdinal {
          return Raised(OtherExc("OverflowError"));
        }
        current := current + 1;
        continue;
      }
      var perDay := 390 / m;
      var i := 0;
      while i < perDay
        invariant 0 <= i <= perDay
        invariant bars == Generated(start, current - 1, m) + DayBars(current, m)[..i]
      {
        assert DayBars(current, m)[..i + 1] == DayBars(current, m)[..i] + [MockBar(current, m, i)];
        bars := bars + [MockBar(current, m, i)];
        i := i + 1;
      }
      assert DayBars(current, m)[..perDay] == DayBars(current, m);
      if current == MaxOrdinal {
        return Raised(OtherExc("OverflowError"));
      }
      current := current + 1;
    }
    return Returned(bars);
  }

  // ------------------------------------------------------------------
  // What the synthetic series looks like
  // ------------------------------------------------------------------

  /** The slot of bar `i` lies within the session: before 16:00. */
  lemma SlotInSession(m: int, i: int)
    requires m >= 1 && 0 <= i < 390 / m
    ensures 0 <= i * m && i * m + m <= 390
  {
    assert (390 / m) * m <= 390;
    assert (i + 1) * m <= (390 / m) * m;
  }

  /** A bar of the series: dated on a weekday of `[lo, hi]`, consistent, with a non-negative volume and a close near 150. */
  predicate GoodBar(b: Bar, lo: int, hi: int)
  {
    lo <= DateOf(b.timestamp) <= hi && Weekday(DateOf(b.timestamp)) < 5
    && !InconsistentBar(b) && b.volume >= 0.0 && 150.0 <= b.close <= 151.0
  }

  /** Consecutive bars move forward in time, exactly `m` minutes apart when on the same date. */
  predicate Steps(g: seq<Bar>, m: int)
  {
    forall i :: 1 <= i < |g| ==>
      DateOf(g[i - 1].timestamp) <= DateOf(g[i].timestamp) && g[i - 1].timestamp < g[i].timestamp
      && (DateOf(g[i - 1].timestamp) == DateOf(g[i].timestamp) ==> g[i].timestamp - g[i - 1].timestamp == m * 60)
  }

  lemma DayBarsShape(d: Date, m: int)
    requires m >= 1 && Weekday(d) < 5
    ensures forall i :: 0 <= i < |DayBars(d, m)| ==> GoodBar(DayBars(d, m)[i], d, d)
    ensures Steps(DayBars(d, m), m)
  {
    var g := DayBars(d, m);
    forall i | 0 <= i < |g|
      ensures GoodBar(g[i], d, d)
    {
      SlotInSession(m, i);
      DateOfAt(d, OpenMinute + i * m);
    }
    forall i | 1 <= i < |g|
      ensures DateOf(g[i - 1].timestamp) <= DateOf(g[i].timestamp) && g[i - 1].timestamp < g[i].timestamp
              && (DateOf(g[i - 1].timestamp) == DateOf(g[i].timestamp) ==> g[i].timestamp - g[i - 1].timestamp == m * 60)
    {
      SlotInSession(m, i);
      SlotInSession(m, i - 1);
      DateOfAt(d, OpenMinute + i * m);
      DateOfAt(d, OpenMinute + (i - 1) * m);
      assert i * m == (i - 1) * m + m;
    }
  }

  lemma DateOfOrder(a: int, b: int)
    requires DateOf(a) < DateOf(b)
    ensures a < b
  {
  }

  lemma StepsConcat(a: seq<Bar>, b: seq<Bar>, m: int)
    requires Steps(a, m) && Steps(b, m)
    requires a != [] && b != [] ==> DateOf(a[|a| - 1].timestamp) < DateOf(b[0].timestamp)
    ensures Steps(a + b, m)
  {
    if a != [] && b != [] {
      DateOfOrder(a[|a| - 1].timestamp, b[0].timestamp);
    }
    var g := a + b;
    forall i | 1 <= i < |g|
      ensures DateOf(g[i - 1].timestamp) <= DateOf(g[i].timestamp) && g[i - 1].timestamp < g[i].timestamp
              && (DateOf(g[i - 1].timestamp) == DateOf(g[i].timestamp) ==> g[i].timestamp - g[i - 1].timestamp == m * 60)
    {
      if i < |a| {
        assert g[i - 1] == a[i - 1] && g[i] == a[i];
      } else if i > |a| {
        assert g[i - 1] == b[i - 1 - |a|] && g[i] == b[i - |a|];
      }
    }
  }

  /**
   * Every synthetic bar is dated on a weekday of the range, is OHLC
   * consistent (`low <= open, close <= high`), has a non-negative volume and
   * a close between 150 and 151; consecutive bars move forward in time, `m`
   * minutes apart within a day.
   */
  lemma {:induction false} GeneratedShape(lo: Date, hi: int, m: int)
    requires hi <= MaxOrdinal && m >= 1
    ensures forall i :: 0 <= i < |Generated(lo, hi, m)| ==> GoodBar(Generated(lo, hi, m)[i], lo, hi)
    ensures Steps(Generated(lo, hi, m), m)
    decreases hi - lo
  {
    if hi >= lo {
      GeneratedShape(lo, hi - 1, m);
      var prev := Generated(lo, hi - 1, m);
      if Weekday(hi) < 5 {
        var day := DayBars(hi as Date, m);
        DayBarsShape(hi as Date, m);
        assert Generated(lo, hi, m) == prev + day;
        if prev != [] && day != [] {
          assert GoodBar(prev[|prev| - 1], lo, hi - 1);
          assert GoodBar(day[0], hi, hi);
        }
        StepsConcat(prev, day, m);
        var g := prev + day;
        forall i | 0 <= i < |g|
          ensures GoodBar(g[i], lo, hi)
        {
          if i < |prev| {
            assert g[i] == prev[i];
          } else {
            assert g[i] == day[i - |prev|];
          }
        }
      } else {
        assert Generated(lo, hi, m) == prev;
      }
    }
  }

  /** A day contributes `390 // m` bars when it is a weekday, none otherwise. */
  lemma {:induction false} GeneratedCount(lo: Date, hi: int, m: int)
    requires hi <= MaxOrdinal && m >= 1
    ensures |Generated(lo, hi, m)| == (390 / m) * |Calendar.DaysIn(lo, hi, IsWeekday)|
    decreases hi - lo
  {
    if hi >= lo {
      GeneratedCount(lo, hi - 1, m);
      var n := |Calendar.DaysIn(lo, hi - 1, IsWeekday)|;
      assert (390 / m) * (n + 1) == (390 / m) * n + 390 / m;
    }
  }

  /** A move between two closes near 150 is far below 10%. */
  lemma SmallMove(a: real, b: real)
    requires 150.0 <= a <= 151.0 && 150.0 <= b <= 151.0
    ensures !(Abs(b - a) / a > 0.10)
  {
    var x := Abs(b - a);
    assert x <= 1.0;
    assert x / a * a == x;
  }

  lemma CalmCloses(g: seq<Bar>, lo: int, hi: int)
    requires forall i :: 0 <= i < |g| ==> GoodBar(g[i], lo, hi)
    ensures Count(ExtremeMove, g, 1, |g|) == 0
  {
    CountPositive(ExtremeMove, g, 1, |g|);
    forall i | 1 <= i < |g|
      ensures !Holds(ExtremeMove, g, i)
    {
      assert GoodBar(g[i], lo, hi) && GoodBar(g[i - 1], lo, hi);
      SmallMove(g[i - 1].close, g[i].close);
    }
  }

  lemma SoundBars(g: seq<Bar>, lo: int, hi: int)
    requires forall i :: 0 <= i < |g| ==> GoodBar(g[i], lo, hi)
    ensures Count(NegativeVolume, g, 0, |g|) == 0 && Count(Inconsistent, g, 0, |g|) == 0
  {
    CountPositive(NegativeVolume, g, 0, |g|);
    CountPositive(Inconsistent, g, 0, |g|);
    forall i | 0 <= i < |g|
      ensures !Holds(NegativeVolume, g, i) && !Holds(Inconsistent, g, i)
    {
      assert GoodBar(g[i], lo, hi);
    }
  }

  lemma Unbroken(g: seq<Bar>, m: int)
    requires Steps(g, m) && m <= 5
    ensures Count(OutOfOrder, g, 1, |g|) == 0 && Count(IntradayGap, g, 1, |g|) == 0
  {
    CountPositive(OutOfOrder, g, 1, |g|);
    CountPositive(IntradayGap, g, 1, |g|);
  }

  lemma {:induction false} AllFinite(g: seq<Bar>, hi: int, nonFinite: real -> bool)
    requires 0 <= hi <= |g|
    requires forall x :: !nonFinite(x)
    ensures NonFiniteTotal(g, hi, nonFinite) == 0
  {
    if hi > 0 {
      AllFinite(g, hi - 1, nonFinite);
      var v := Ohlcv(g[hi - 1]);
      assert !nonFinite(v[0]) && !nonFinite(v[1]) && !nonFinite(v[2]) && !nonFinite(v[3]) && !nonFinite(v[4]);
      assert CountNonFinite(v, nonFinite) == 0;
    }
  }

  /**
   * A non-empty synthetic series of bars at most five minutes apart passes
   * every check of the quality gate: no same-day gap exceeds five minutes,
   * timestamps strictly increase, closes never move 10%, and every bar is
   * consistent with a non-negative volume. A real value is never NaN or
   * infinite.
   */
  lemma GeneratedPassesValidation(lo: Date, hi: int, m: int, nonFinite: real -> bool)
    requires hi <= MaxOrdinal && 1 <= m <= 5
    requires forall x :: !nonFinite(x)
    requires Generated(lo, hi, m) != []
    ensures Validation(Generated(lo, hi, m), nonFinite).Passed()
  {
    var g := Generated(lo, hi, m);
    GeneratedShape(lo, hi, m);
    CalmCloses(g, lo, hi);
    SoundBars(g, lo, hi);
    Unbroken(g, m);
    AllFinite(g, |g|, nonFinite);
  }

  /** A `"1min"` series with at least one weekday passes the gate. */
  lemma OneMinuteSeriesPasses(start: Date, end: Date, nonFinite: real -> bool)
    requires forall x :: !nonFinite(x)
    requires GenerateOutcome(start, end, "1min").Returned? && GenerateOutcome(start, end, "1min").value != []
    ensures Validation(GenerateOutcome(start, end, "1min").value, nonFinite).Passed()
  {
    GeneratedPassesValidation(start, end, 1, nonFinite);
  }

  // ------------------------------------------------------------------
  // The weekday calendar
  // ------------------------------------------------------------------

  predicate IsWeekday(d: Date)
  {
    Weekday(d) < 5
  }

  /** `get_trading_dates`: the weekdays of the range, with no holiday rules. */
  function TradingDates(start: Date, end: Date): Outcome<seq<Date>>
  {
    Calendar.DaysThrough(start, end, IsWeekday)
  }

  method GetTradingDates(start: Date, end: Date) returns (r: Outcome<seq<Date>>)
    ensures r == TradingDates(start, end)
  {
    r := Calendar.CollectDays(start, end, IsWeekday);
  }

  /**
   * The dates returned are exactly the weekdays of the range, strictly
   * increasing; only a range ending at `date.max` raises; a synthetic series
   * over the same range has `390 // m` bars per returned date.
   */
  lemma TradingDatesMeaning(start: Date, end: Date, m: int)
    requires m >= 1
    ensures TradingDates(start, end).Raised? <==> start <= end == MaxOrdinal
    ensures TradingDates(start, end).Returned? ==>
              var r := TradingDates(start, end).value;
              (forall i :: 0 <= i < |r| ==> start <= r[i] <= end && Weekday(r[i]) < 5)
              && (forall d: Date :: start <= d <= end && Weekday(d) < 5 ==> d in r)
              && (forall i, j :: 0 <= i < j < |r| ==> r[i] < r[j])
              && |Generated(start, end, m)| == (390 / m) * |r|
  {
    if start <= end < MaxOrdinal {
      Calendar.DaysInMeaning(start, end, IsWeekday);
      GeneratedCount(start, end, m);
    } else if start > end {
      GeneratedCount(start, end, m);
      assert Calendar.DaysIn(start, end, IsWeekday) == [];
    }
  }

  // ------------------------------------------------------------------
  // The provider
  // ------------------------------------------------------------------

  /** The bars dated in `[start, end]`. */
  function InRange(start: Date, end: Date): Bar -> bool
  {
    (b: Bar) => start <= DateOf(b.timestamp) <= end
  }

  lemma {:induction false} FilterIsSublist<T>(s: seq<T>, p: T -> bool)
    ensures Cache.Sublist(Filter(s, p), s)
  {
    if s != [] {
      FilterIsSublist(s[1..], p);
      if !p(s[0]) {
        Cache.SublistDropFront(Filter(s, p), s);
      }
    }
  }

  /** The default quote: a one-cent-wide market around 150, stamped `now`. */
  function DefaultQuote(key: string, now: int): Quote
  {
    Quote(key, now, 149.99, 100.0, 150.01, 200.0, Some(150.00), Some(50.0))
  }

  lemma DefaultQuotePasses(key: string, now: int)
    ensures ValidateQuote(DefaultQuote(key, now))
    ensures DefaultQuote(key, now).Spread() < 0.10 * DefaultQuote(key, now).Mid()
  {
  }

  class MockProvider {
    var bars: map<string, seq<Bar>>
    var quotes: map<string, Quote>
    var snapshots: map<string, Snapshot>
    var tickerInfo: map<string, TickerInfo>
    var earnings: map<string, seq<EarningsReport>>
    var dividends: map<string, seq<DividendEvent>>
    var corporateActions: map<string, seq<CorporateAction>>

    constructor()
      ensures bars == map[] && quotes == map[] && snapshots == map[] && tickerInfo == map[]
      ensures earnings == map[] && dividends == map[] && corporateActions == map[]
    {
      bars := map[];
      quotes := map[];
      snapshots := map[];
      tickerInfo := map[];
      earnings := map[];
      dividends := map[];
      corporateActions := map[];
    }

    method SetBars(symbol: string, bs: seq<Bar>)
      modifies this
      ensures bars == old(bars)[Upper(symbol) := bs]
      ensures quotes == old(quotes) && snapshots == old(snapshots) && tickerInfo == old(tickerInfo)
      ensures earnings == old(earnings) && dividends == old(dividends) && corporateActions == old(corporateActions)
      ensures forall s :: Upper(s) == Upper(symbol) ==> PresetBars(s) == Some(bs)
    {
      bars := bars[Upper(symbol) := bs];
    }

    method SetQuote(symbol: string, q: Quote)
      modifies this
      ensures quotes == old(quotes)[Upper(symbol) := q]
      ensures bars == old(bars) && snapshots == old(snapshots) && tickerInfo == old(tickerInfo)
      ensures earnings == old(earnings) && dividends == old(dividends) && corporateActions == old(corporateActions)
      ensures forall s, now :: Upper(s) == Upper(symbol) ==> GetQuote(s, now) == q
    {
      quotes := quotes[Upper(symbol) := q];
    }

    method SetSnapshot(symbol: string, snap: Snapshot)
      modifies this
      ensures snapshots == old(snapshots)[Upper(symbol) := snap]
      ensures bars == old(bars) && quotes == old(quotes) && tickerInfo == old(tickerInfo)
      ensures earnings == old(earnings) && dividends == old(dividends) && corporateActions == old(corporateActions)
      ensures forall s, now :: Upper(s) == Upper(symbol) ==> GetSnapshot(s, now) == snap
    {
      snapshots := snapshots[Upper(symbol) := snap];
    }

    method SetTickerInfo(symbol: string, info: TickerInfo)
      modifies this
      ensures tickerInfo == old(tickerInfo)[Upper(symbol) := info]
      ensures bars == old(bars) && quotes == old(quotes) && snapshots == old(snapshots)
      ensures earnings == old(earnings) && dividends == old(dividends) && corporateActions == old(corporateActions)
      ensures forall s :: Upper(s) == Upper(symbol) ==> GetTickerInfo(s) == info
    {
      tickerInfo := tickerInfo[Upper(symbol) := info];
    }

    method SetEarnings(symbol: string, events: seq<EarningsReport>)
      modifies this
      ensures earnings == old(earnings)[Upper(symbol) := events]
      ensures bars == old(bars) && quotes == old(quotes) && snapshots == old(snapshots) && tickerInfo == old(tickerInfo)
      ensures dividends == old(dividends) && corporateActions == old(corporateActions)
      ensures forall s, limit :: Upper(s) == Upper(symbol) ==> GetEarnings(s, limit) == SliceTo(events, limit)
    {
      earnings := earnings[Upper(symbol) := events];
    }

    method SetDividends(symbol: string, events: seq<DividendEvent>)
      modifies this
      ensures dividends == old(dividends)[Upper(symbol) := events]
      ensures bars == old(bars) && quotes == old(quotes) && snapshots == old(snapshots) && tickerInfo == old(tickerInfo)
      ensures earnings == old(earnings) && corporateActions == old(corporateActions)
      ensures forall s, limit :: Upper(s) == Upper(symbol) ==> GetDividends(s, limit) == SliceTo(events, limit)
    {
      dividends := dividends[Upper(symbol) := events];
    }

    method SetCorporateActions(symbol: string, actions: seq<CorporateAction>)
      modifies this
      ensures corporateActions == old(corporateActions)[Upper(symbol) := actions]
      ensures bars == old(bars) && quotes == old(quotes) && snapshots == old(snapshots) && tickerInfo == old(tickerInfo)
      ensures earnings == old(earnings) && dividends == old(dividends)
      ensures forall s :: Upper(s) == Upper(symbol) ==> GetCorporateActions(s) == actions
    {
      corporateActions := corporateActions[Upper(symbol) := actions];
    }

    /** The bars preset for the symbol, if any. */
    function PresetBars(symbol: string): Option<seq<Bar>>
      reads this
    {
      if Upper(symbol) in bars then Some(bars[Upper(symbol)]) else None
    }

    /**
     * `get_bars`: the preset bars dated in the range, in their order, or
     * else the synthetic series.
     */
    function BarsOutcome(symbol: string, start: Date, end: Date, tf: string): Outcome<seq<Bar>>
      reads this
    {
      match PresetBars(symbol)
      case Some(bs) => Returned(Filter(bs, InRange(start, end)))
      case None => GenerateOutcome(start, end, tf)
    }

    method GetBars(symbol: string, start: Date, end: Date, tf: string) returns (r: Outcome<seq<Bar>>)
      ensures r == BarsOutcome(symbol, start, end, tf)
    {
      var key := Upper(symbol);
      if key in bars {
        return Returned(Filter(bars[key], InRange(start, end)));
      }
      r := GenerateBars(start, end, tf);
    }

    /**
     * With preset bars, exactly the preset bars dated in `[start, end]` come
     * back, in their original order, whatever the timeframe.
     */
    lemma PresetBarsFiltered(symbol: string, start: Date, end: Date, tf: string)
      requires PresetBars(symbol).Some?
      ensures BarsOutcome(symbol, start, end, tf).Returned?
      ensures var r := BarsOutcome(symbol, start, end, tf).value;
              var preset := PresetBars(symbol).value;
              (forall b :: b in r <==> b in preset && start <= DateOf(b.timestamp) <= end)
              && Cache.Sublist(r, preset)
    {
      FilterMembers(PresetBars(symbol).value, InRange(start, end));
      FilterIsSublist(PresetBars(symbol).value, InRange(start, end));
    }

    /** `get_quote`: the preset quote, or the default quote for the upper-cased symbol. */
    function GetQuote(symbol: string, now: int): (q: Quote)
      reads this
      ensures Upper(symbol) !in quotes ==> q.symbol == Upper(symbol) && q.timestamp == now && ValidateQuote(q)
    {
      if Upper(symbol) in quotes then quotes[Upper(symbol)] else DefaultQuote(Upper(symbol), now)
    }

    /** `get_snapshot`: the preset snapshot, or one around the symbol's quote. */
    function GetSnapshot(symbol: string, now: int): (s: Snapshot)
      reads this
      ensures Upper(symbol) !in snapshots ==>
                s.symbol == Upper(symbol) && s.quote == GetQuote(symbol, now)
                && s.minuteBar.None? && s.dailyBar.None? && s.change.None?
    {
      if Upper(symbol) in snapshots then snapshots[Upper(symbol)]
      else Snapshot(Upper(symbol), GetQuote(symbol, now))
    }

    /** `get_ticker_info`: the preset record, or a common stock named after the symbol. */
    function GetTickerInfo(symbol: string): (t: TickerInfo)
      reads this
      ensures Upper(symbol) !in tickerInfo ==>
                t.symbol == Upper(symbol) && t.name == Upper(symbol) + " Inc." && t.securityType == "CS"
                && forall f :: f !in {SymbolField, NameField, TypeField} ==> t.Get(f).None?
    {
      if Upper(symbol) in tickerInfo then tickerInfo[Upper(symbol)]
      else TickerInfo(Upper(symbol), Upper(symbol) + " Inc.", "CS")
    }

    /** `get_earnings`: the first `limit` preset reports, none when nothing is preset. */
    function GetEarnings(symbol: string, limit: int): (r: seq<EarningsReport>)
      reads this
      ensures Upper(symbol) !in earnings ==> r == []
      ensures Upper(symbol) in earnings ==> r <= earnings[Upper(symbol)]
      ensures limit >= 0 ==> |r| <= limit
      ensures Upper(symbol) in earnings && 0 <= limit <= |earnings[Upper(symbol)]| ==> |r| == limit
    {
      SliceTo(if Upper(symbol) in earnings then earnings[Upper(symbol)] else [], limit)
    }

    /** `get_dividends`: the first `limit` preset events, none when nothing is preset. */
    function GetDividends(symbol: string, limit: int): (r: seq<DividendEvent>)
      reads this
      ensures Upper(symbol) !in dividends ==> r == []
      ensures Upper(symbol) in dividends ==> r <= dividends[Upper(symbol)]
      ensures limit >= 0 ==> |r| <= limit
      ensures Upper(symbol) in dividends && 0 <= limit <= |dividends[Upper(symbol)]| ==> |r| == limit
    {
      SliceTo(if Upper(symbol) in dividends then dividends[Upper(symbol)] else [], limit)
    }

    /** `get_corporate_actions`: every preset action, none when nothing is preset. */
    function GetCorporateActions(symbol: string): (r: seq<CorporateAction>)
      reads this
      ensures r != [] ==> Upper(symbol) in corporateActions
    {
      if Upper(symbol) in corporateActions then corporateActions[Upper(symbol)] else []
    }

    /**
     * The mock as a provider of the orchestrator: every capability, and every
     * call answering from the current presets, with `now` the clock of the
     * default quote.
     */
    function AsProvider(now: int): Manager.Provider
      reads this
    {
      var bs := bars;
      var qs := quotes;
      var ss := snapshots;
      var ts := tickerInfo;
      var es := earnings;
      var ds := dividends;
      var cs := corporateActions;
      Manager.Provider(
        {Manager.BarsCap, Manager.QuotesCap, Manager.SnapshotsCap, Manager.TickerInfoCap,
         Manager.EarningsCap, Manager.DividendsCap, Manager.CorporateActionsCap, Manager.CalendarCap},
        (s: string, st: Date, en: Date, tf: string) =>
          if Upper(s) in bs then Returned(Filter(bs[Upper(s)], InRange(st, en))) else GenerateOutcome(st, en, tf),
        (s: string) => Returned(if Upper(s) in qs then qs[Upper(s)] else DefaultQuote(Upper(s), now)),
        (s: string) => Returned(if Upper(s) in ss then ss[Upper(s)]
                                else Snapshot(Upper(s), if Upper(s) in qs then qs[Upper(s)] else DefaultQuote(Upper(s), now))),
        (s: string) => Returned(if Upper(s) in ts then ts[Upper(s)] else TickerInfo(Upper(s), Upper(s) + " Inc.", "CS")),
        (s: string, n: int) => Returned(SliceTo(if Upper(s) in es then es[Upper(s)] else [], n)),
        (s: string, n: int) => Returned(SliceTo(if Upper(s) in ds then ds[Upper(s)] else [], n)),
        (s: string) => Returned(if Upper(s) in cs then cs[Upper(s)] else []),
        (st: Date, en: Date) => TradingDates(st, en))
    }

    /** The provider value advertises every capability, and each of its calls answers as the mock's own operation does. */
    lemma AsProviderAnswers(now: int, c: Manager.Capability, s: string, st: Date, en: Date, tf: string, n: int)
      ensures c in AsProvider(now).caps
      ensures AsProvider(now).bars(s, st, en, tf) == BarsOutcome(s, st, en, tf)
      ensures AsProvider(now).quote(s) == Returned(GetQuote(s, now))
      ensures AsProvider(now).snapshot(s) == Returned(GetSnapshot(s, now))
      ensures AsProvider(now).tickerInfo(s) == Returned(GetTickerInfo(s))
      ensures AsProvider(now).earnings(s, n) == Returned(GetEarnings(s, n))
      ensures AsProvider(now).dividends(s, n) == Returned(GetDividends(s, n))
      ensures AsProvider(now).corporateActions(s) == Returned(GetCorporateActions(s))
      ensures AsProvider(now).tradingDates(st, en) == TradingDates(st, en)
    {
      match c
      case BarsCap =>
      case _ =>
    }
  }
}
