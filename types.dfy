/** The trading-data records and the constant tables shared by both feeds:
    a historical bar, a live candle (the same bar tagged with its symbol),
    the tick sizes the back end accepts, the subset the UI offers, and the
    traded symbols. Prices and volumes are `real`; times and trade counts,
    which the feeds send as whole numbers, are `int`. */
module Types {

  /** One completed historical bar. */
  datatype CandleData = CandleData(
    openTime: int,
    closeTime: int,
    open: real,
    high: real,
    low: real,
    close: real,
    volume: real,
    tradeCount: int)

  /** One candle pushed by the live feed: a bar together with its symbol. */
  datatype LiveCandleData = LiveCandleData(
    symbol: string,
    openTime: int,
    closeTime: int,
    open: real,
    high: real,
    low: real,
    close: real,
    volume: real,
    tradeCount: int)

  /** The bar part of a live candle: everything but the symbol. */
  function BarOf(c: LiveCandleData): (b: CandleData)
    ensures b.openTime == c.openTime && b.closeTime == c.closeTime
    ensures b.open == c.open && b.high == c.high && b.low == c.low && b.close == c.close
    ensures b.volume == c.volume && b.tradeCount == c.tradeCount
  {
    CandleData(c.openTime, c.closeTime, c.open, c.high, c.low, c.close, c.volume, c.tradeCount)
  }

  /** A bar tagged with a symbol. */
  function WithSymbol(b: CandleData, symbol: string): (c: LiveCandleData)
    ensures c.symbol == symbol
  {
    LiveCandleData(symbol, b.openTime, b.closeTime, b.open, b.high, b.low, b.close, b.volume, b.tradeCount)
  }

  /** A live candle is exactly a bar plus a symbol: splitting it into the two
      and joining them again is the identity, both ways round. */
  lemma LiveCandleIsBarPlusSymbol(c: LiveCandleData, b: CandleData, s: string)
    ensures WithSymbol(BarOf(c), c.symbol) == c
    ensures BarOf(WithSymbol(b, s)) == b
  {
  }

  /** The resolutions the historical endpoint accepts. */
  datatype TickSize = Ms1 | S1 | M1 | M5 | M15 | H1 | H4 | D1

  /** The text of a tick size, as sent in the query string. */
  function TickSizeText(t: TickSize): (s: string)
    ensures 2 <= |s| <= 3 && '1' <= s[0] <= '9'
    ensures s[|s| - 1] in {'s', 'm', 'h', 'd'}
  {
    match t
    case Ms1 => "1ms"
    case S1 => "1s"
    case M1 => "1m"
    case M5 => "5m"
    case M15 => "15m"
    case H1 => "1h"
    case H4 => "4h"
    case D1 => "1d"
  }

  /** The text of a tick size names it uniquely. */
  lemma TickSizeTextInjective(t: TickSize, u: TickSize)
    requires TickSizeText(t) == TickSizeText(u)
    ensures t == u
  {
  }

  datatype TickSizeOption = TickSizeOption(value: TickSize, labelText: string)

  /** The choices the resolution selector offers. */
  const TickSizeOptions: seq<TickSizeOption> := [
    TickSizeOption(M1, "1 Minute"),
    TickSizeOption(M5, "5 Minutes"),
    TickSizeOption(M15, "15 Minutes"),
    TickSizeOption(H1, "1 Hour"),
    TickSizeOption(H4, "4 Hours"),
    TickSizeOption(D1, "1 Day")
  ]

  function OptionValues(opts: seq<TickSizeOption>): (vs: seq<TickSize>)
    ensures |vs| == |opts|
    ensures forall i :: 0 <= i < |opts| ==> vs[i] == opts[i].value
  {
    if opts == [] then [] else [opts[0].value] + OptionValues(opts[1..])
  }

  /** Six options, in increasing resolution; the two finest resolutions the
      back end accepts are never offered. */
  lemma TickSizeOptionsShape()
    ensures OptionValues(TickSizeOptions) == [M1, M5, M15, H1, H4, D1]
    ensures forall i :: 0 <= i < |TickSizeOptions| ==> TickSizeOptions[i].value !in {Ms1, S1}
  {
  }

  /** The symbols the UI can select. */
  const Symbols: seq<string> := ["BTCUSDT", "ETHUSDT", "BNBUSDT", "SOLUSDT", "XRPUSDT"]

  /** Five symbols, no two alike. */
  lemma SymbolsDistinct()
    ensures |Symbols| == 5
    ensures forall i, j :: 0 <= i < j < |Symbols| ==> Symbols[i] != Symbols[j]
  {
  }
}
