/** The logic of the historical chart that is not drawing: the summary
    statistics over the fetched bars, the end-of-day normalisation of the
    requested range, and the small per-bar and per-resolution choices. */
module PastDataChart {

  import opened Wrappers
  import opened Types
  import Dates
  import PastData
  import Api

  // ---------------------------------------------------------------------------
  // Statistics

  datatype Statistics = Statistics(
    high: real,
    low: real,
    avgVolume: real,
    totalTrades: int,
    priceChange: real,
    priceChangePercent: Option<real>)   // None where the division by the first open is not finite

  /** `Math.max` over the highs. */
  function MaxHigh(bars: seq<CandleData>): (m: real)
    requires |bars| > 0
    ensures forall i :: 0 <= i < |bars| ==> bars[i].high <= m
    ensures exists i :: 0 <= i < |bars| && bars[i].high == m
  {
    if |bars| == 1 then bars[0].high
    else
      var rest := MaxHigh(bars[1..]);
      assert forall i :: 1 <= i < |bars| ==> bars[i] == bars[1..][i - 1];
      if bars[0].high >= rest then bars[0].high else rest
  }

  /** `Math.min` over the lows. */
  function MinLow(bars: seq<CandleData>): (m: real)
    requires |bars| > 0
    ensures forall i :: 0 <= i < |bars| ==> m <= bars[i].low
    ensures exists i :: 0 <= i < |bars| && bars[i].low == m
  {
    if |bars| == 1 then bars[0].low
    else
      var rest := MinLow(bars[1..]);
      assert forall i :: 1 <= i < |bars| ==> bars[i] == bars[1..][i - 1];
      if bars[0].low <= rest then bars[0].low else rest
  }

  /** `reduce((sum, d) => sum + d.volume, 0)`, folding from the left. */
  function SumVolume(bars: seq<CandleData>): real
  {
    if bars == [] then 0.0 else SumVolume(bars[..|bars| - 1]) + bars[|bars| - 1].volume
  }

  /** `reduce((sum, d) => sum + d.tradeCount, 0)`. */
  function SumTrades(bars: seq<CandleData>): int
  {
    if bars == [] then 0 else SumTrades(bars[..|bars| - 1]) + bars[|bars| - 1].tradeCount
  }

  /** `change / base * 100`, absent where JavaScript would give an infinite or NaN result. */
  function PercentOf(change: real, base: real): (p: Option<real>)
    ensures p.None? <==> base == 0.0
  {
    if base == 0.0 then None else Some(change / base * 100.0)
  }

  /** `stats`: absent for no bars. */
  function Stats(bars: seq<CandleData>): (s: Option<Statistics>)
    ensures s.None? <==> bars == []
  {
    if |bars| > 0 then
      var first, last := bars[0], bars[|bars| - 1];
      var change := last.close - first.open;
      Some(Statistics(
        MaxHigh(bars),
        MinLow(bars),
        SumVolume(bars) / (|bars| as real),
        SumTrades(bars),
        change,
        PercentOf(change, first.open)))
    else None
  }

  /** The high is the largest high and one of them; the low is the smallest low and one of them. */
  lemma StatsExtremes(bars: seq<CandleData>)
    requires bars != []
    ensures var s := Stats(bars).value;
            (forall i :: 0 <= i < |bars| ==> bars[i].high <= s.high && s.low <= bars[i].low) &&
            (exists i :: 0 <= i < |bars| && bars[i].high == s.high) &&
            (exists j :: 0 <= j < |bars| && bars[j].low == s.low)
  {
    var s := Stats(bars).value;
    assert s.high == MaxHigh(bars) && s.low == MinLow(bars);
    var i :| 0 <= i < |bars| && bars[i].high == MaxHigh(bars);
    var j :| 0 <= j < |bars| && bars[j].low == MinLow(bars);
  }

  /** When every bar's low is at most its high, so is the overall low at most the overall high. */
  lemma StatsLowBelowHigh(bars: seq<CandleData>)
    requires bars != []
    requires forall i :: 0 <= i < |bars| ==> bars[i].low <= bars[i].high
    ensures Stats(bars).value.low <= Stats(bars).value.high
  {
    var s := Stats(bars).value;
    var j :| 0 <= j < |bars| && bars[j].low == s.low;
    assert bars[j].high <= s.high;
  }

  /** The volume sum of a concatenation is the sum of the volume sums. */
  lemma {:induction false} SumVolumeAppend(a: seq<CandleData>, b: seq<CandleData>)
    ensures SumVolume(a + b) == SumVolume(a) + SumVolume(b)
    decreases |b|
  {
    if b != [] {
      var b' := b[..|b| - 1];
      assert (a + b)[..|a + b| - 1] == a + b';
      assert (a + b)[|a + b| - 1] == b[|b| - 1];
      SumVolumeAppend(a, b');
    } else {
      assert a + b == a;
    }
  }

  /** The trade-count sum of a concatenation is the sum of the trade-count sums. */
  lemma {:induction false} SumTradesAppend(a: seq<CandleData>, b: seq<CandleData>)
    ensures SumTrades(a + b) == SumTrades(a) + SumTrades(b)
    decreases |b|
  {
    if b != [] {
      var b' := b[..|b| - 1];
      assert (a + b)[..|a + b| - 1] == a + b';
      assert (a + b)[|a + b| - 1] == b[|b| - 1];
      SumTradesAppend(a, b');
    } else {
      assert a + b == a;
    }
  }

  /** The average volume times the count is the total volume. */
  lemma {:induction false} StatsAverage(bars: seq<CandleData>)
    requires bars != []
    ensures Stats(bars).value.avgVolume * (|bars| as real) == SumVolume(bars)
    ensures Stats(bars).value.totalTrades == SumTrades(bars)
  {
    StatsFields(bars);
    DivTimes(SumVolume(bars), |bars|);
  }

  lemma StatsFields(bars: seq<CandleData>)
    requires bars != []
    ensures Stats(bars).value.avgVolume == SumVolume(bars) / (|bars| as real)
    ensures Stats(bars).value.totalTrades == SumTrades(bars)
  {
  }

  lemma DivTimes(x: real, n: nat)
    requires n > 0
    ensures x / (n as real) * (n as real) == x
  {
  }

  /** The volume and trade totals add up bar by bar from the first. */
  lemma TotalsFromFirst(bars: seq<CandleData>)
    requires bars != []
    ensures SumVolume(bars) == bars[0].volume + SumVolume(bars[1..])
    ensures SumTrades(bars) == bars[0].tradeCount + SumTrades(bars[1..])
  {
    assert bars == [bars[0]] + bars[1..];
    SumVolumeAppend([bars[0]], bars[1..]);
    SumTradesAppend([bars[0]], bars[1..]);
    SingleSums(bars[0]);
  }

  lemma SingleSums(bar: CandleData)
    ensures SumVolume([bar]) == bar.volume && SumTrades([bar]) == bar.tradeCount
  {
    assert [bar][..0] == [];
  }

  /** The net change runs from the first open to the last close, and the
      percentage is that change against the first open. */
  lemma StatsChange(bars: seq<CandleData>)
    requires bars != []
    ensures Stats(bars).value.priceChange == bars[|bars| - 1].close - bars[0].open
    ensures bars[0].open != 0.0 ==>
              Stats(bars).value.priceChangePercent == Some(Stats(bars).value.priceChange / bars[0].open * 100.0)
    ensures bars[0].open == 0.0 <==> Stats(bars).value.priceChangePercent.None?
  {
  }

  /** Bars opening at 100 and closing at 110, then opening at 110 and closing
      at 90: a change of -10, which is -10%. */
  lemma StatsExample(t0: int, t1: int, t2: int)
    ensures var bars := [CandleData(t0, t1, 100.0, 115.0, 95.0, 110.0, 3.0, 10),
                         CandleData(t1, t2, 110.0, 112.0, 85.0, 90.0, 5.0, 6)];
            Stats(bars) == Some(Statistics(115.0, 85.0, 4.0, 16, -10.0, Some(-10.0)))
  {
    var bars := [CandleData(t0, t1, 100.0, 115.0, 95.0, 110.0, 3.0, 10),
                 CandleData(t1, t2, 110.0, 112.0, 85.0, 90.0, 5.0, 6)];
    assert bars[..1] == [bars[0]];
    SingleSums(bars[0]);
    assert SumVolume(bars) == 8.0;
    assert SumTrades(bars) == 16;
  }

  // ---------------------------------------------------------------------------
  // Per-resolution and per-bar choices

  /** The date-fns pattern of the axis labels for a resolution. */
  function LabelPattern(tickSize: TickSize): (p: string)
    ensures p in {"MMM dd", "MMM dd HH:mm", "HH:mm"}
  {
    if tickSize == D1 then "MMM dd"
    else if tickSize == H4 || tickSize == H1 then "MMM dd HH:mm"
    else "HH:mm"
  }

  /** Daily bars show the date, four-hour and hourly bars the date and time,
      and every finer resolution the time only. */
  lemma LabelPatternChoice(tickSize: TickSize)
    ensures LabelPattern(tickSize) == "MMM dd" <==> tickSize == D1
    ensures LabelPattern(tickSize) == "MMM dd HH:mm" <==> tickSize in {H1, H4}
    ensures LabelPattern(tickSize) == "HH:mm" <==> tickSize in {Ms1, S1, M1, M5, M15}
  {
  }

  datatype BarColors = BarColors(background: string, border: string)

  const Green: BarColors := BarColors("rgba(16, 185, 129, 0.5)", "rgb(16, 185, 129)")
  const Red: BarColors := BarColors("rgba(239, 68, 68, 0.5)", "rgb(239, 68, 68)")

  /** The fill and border of a volume bar. */
  function VolumeColors(bar: CandleData): (c: BarColors)
    ensures c == Green || c == Red
  {
    if bar.close >= bar.open then Green else Red
  }

  /** A volume bar is green exactly when the bar did not close below its open. */
  lemma VolumeColorsChoice(bar: CandleData)
    ensures VolumeColors(bar) == Green <==> bar.close >= bar.open
    ensures VolumeColors(bar) == Red <==> bar.close < bar.open
  {
  }

  /** The point radius of the close-price line. */
  function PointRadius(barCount: nat): (r: nat)
    ensures r == 0 || r == 2
  {
    if barCount > 100 then 0 else 2
  }

  /** Points are hidden exactly when there are more than 100 bars. */
  lemma PointRadiusChoice(barCount: nat)
    ensures PointRadius(barCount) == 0 <==> barCount > 100
    ensures PointRadius(barCount) == 2 <==> barCount <= 100
  {
  }

  // ---------------------------------------------------------------------------
  // The fetch button

  /** `handleFetch`: the parsed day bounds become `Date` objects, the upper one
      is moved to the last millisecond of its day in place, and the fetch is
      issued with both. No check is made that `from` is not after `to`. */
  method HandleFetch(hook: PastData.PastDataHook, symbol: string, fromDay: Dates.DateValue,
                     toDay: Dates.DateValue, tickSize: TickSize)
    returns (request: Option<string>)
    modifies hook
    ensures var req := PastData.Request(symbol, fromDay, Dates.EndOfDay(toDay), tickSize);
            (req.Ok? ==> request == Some(req.value) && hook.isLoading && hook.error == None &&
                         hook.data == old(hook.data)) &&
            (req.Err? ==> request == None && hook.error == Some(req.error) && !hook.isLoading &&
                          hook.data == [])
  {
    var from := new Dates.JsDate(fromDay);
    var to := new Dates.JsDate(toDay);
    to.SetHoursInPlace(23, 59, 59, 999);
    request := hook.BeginFetch(symbol, from.value, to.value, tickSize);
  }

  /** The query `handleFetch` sends for two valid days: `from` at the parsed
      instant, `to` at 23:59:59 of its day, the milliseconds dropped by the
      formatting. */
  lemma HandleFetchQuery(symbol: string, fromDay: Dates.DateTime, toDay: Dates.DateTime, tickSize: TickSize)
    ensures PastData.Request(symbol, Dates.At(fromDay), Dates.EndOfDay(Dates.At(toDay)), tickSize)
         == Ok(Api.TradesUrl(symbol, Dates.FormatLocal(Dates.At(fromDay)).value,
                             Dates.DatePart(toDay) + "T23:59:59", TickSizeText(tickSize)))
  {
    Dates.EndOfDayFormat(toDay);
  }
}
