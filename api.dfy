/** Endpoint configuration: the two service bases and the URL builders, which
    are plain concatenation with no escaping of any part. */
module Api {

  import opened Wrappers

  const PastDataBaseUrl: string := "http://localhost:8081"
  const LiveDataWsUrl: string := "ws://localhost:8080"

  const TradesPath: string := "/trades/"
  const LivePath: string := "/ws/live@"

  /** The historical query for `symbol` between the already formatted bounds,
      at the given resolution. */
  function TradesUrl(symbol: string, from: string, to: string, tickSize: string): (url: string)
    ensures PastDataBaseUrl + TradesPath <= url
    ensures TradesSymbol(url) == Some(symbol[..FirstQuery(symbol)])
  {
    var query := "from=" + from + "&to=" + to + "&tickSize=" + tickSize;
    QueryReadBack(symbol, query);
    PastDataBaseUrl + TradesPath + symbol + "?" + query
  }

  /** The live stream for `symbol`. */
  function LiveWebSocketUrl(symbol: string): (url: string)
    ensures LiveDataWsUrl + LivePath <= url
    ensures WsSymbol(url) == Some(symbol)
  {
    LiveDataWsUrl + LivePath + symbol
  }

  /** Both builders start with their configured base. */
  lemma UrlsStartWithBase(symbol: string, from: string, to: string, tickSize: string)
    ensures PastDataBaseUrl <= TradesUrl(symbol, from, to, tickSize)
    ensures LiveDataWsUrl <= LiveWebSocketUrl(symbol)
  {
    var t := TradesUrl(symbol, from, to, tickSize);
    assert t == PastDataBaseUrl + (TradesPath + symbol + "?from=" + from + "&to=" + to + "&tickSize=" + tickSize);
    var w := LiveWebSocketUrl(symbol);
    assert w == LiveDataWsUrl + (LivePath + symbol);
  }

  /** The symbol of a live-stream URL: whatever follows the fixed prefix. */
  function WsSymbol(url: string): (s: Option<string>)
    ensures s.Some? <==> LiveDataWsUrl + LivePath <= url
  {
    var prefix := LiveDataWsUrl + LivePath;
    if prefix <= url then Some(url[|prefix|..]) else None
  }

  /** The live-stream URL gives its symbol back, so two symbols never share a stream URL. */
  lemma WsSymbolRoundTrip(symbol: string, other: string)
    ensures WsSymbol(LiveWebSocketUrl(symbol)) == Some(symbol)
    ensures LiveWebSocketUrl(symbol) == LiveWebSocketUrl(other) ==> symbol == other
  {
    var prefix := LiveDataWsUrl + LivePath;
    assert LiveWebSocketUrl(symbol) == prefix + symbol;
    assert (prefix + symbol)[|prefix|..] == symbol;
    assert LiveWebSocketUrl(other) == prefix + other;
    assert (prefix + other)[|prefix|..] == other;
  }

  /** The index of the first '?' in `s`, or `|s|` when there is none. */
  function FirstQuery(s: string): (k: nat)
    ensures k <= |s|
    ensures forall i :: 0 <= i < k ==> s[i] != '?'
    ensures k < |s| ==> s[k] == '?'
  {
    if s == [] || s[0] == '?' then 0 else 1 + FirstQuery(s[1..])
  }

  /** The symbol of a trades URL: the text between the fixed prefix and the first '?'. */
  function TradesSymbol(url: string): (s: Option<string>)
    ensures s.Some? <==> PastDataBaseUrl + TradesPath <= url
  {
    var prefix := PastDataBaseUrl + TradesPath;
    if prefix <= url then
      var rest := url[|prefix|..];
      Some(rest[..FirstQuery(rest)])
    else None
  }

  /** The first '?' after a symbol and a '?' is the symbol's own first '?',
      or the added one when the symbol has none. */
  lemma {:induction false} FirstQueryAfter(symbol: string, tail: string)
    ensures FirstQuery(symbol + "?" + tail) == FirstQuery(symbol)
  {
    if symbol != [] && symbol[0] != '?' {
      assert (symbol + "?" + tail)[1..] == symbol[1..] + "?" + tail;
      FirstQueryAfter(symbol[1..], tail);
    }
  }

  /** The trades prefix followed by a symbol, a '?' and a query reads back as
      the symbol up to its first '?'. */
  lemma QueryReadBack(symbol: string, query: string)
    ensures var url := PastDataBaseUrl + TradesPath + symbol + "?" + query;
            PastDataBaseUrl + TradesPath <= url &&
            TradesSymbol(url) == Some(symbol[..FirstQuery(symbol)])
  {
    var prefix := PastDataBaseUrl + TradesPath;
    var url := prefix + symbol + "?" + query;
    assert url == prefix + (symbol + "?" + query);
    assert url[|prefix|..] == symbol + "?" + query;
    FirstQueryAfter(symbol, query);
    assert (symbol + "?" + query)[..FirstQuery(symbol)] == symbol[..FirstQuery(symbol)];
  }

  /** A symbol with no '?' in it is read back from its trades URL. */
  lemma TradesSymbolRoundTrip(symbol: string, from: string, to: string, tickSize: string)
    requires forall i :: 0 <= i < |symbol| ==> symbol[i] != '?'
    ensures TradesSymbol(TradesUrl(symbol, from, to, tickSize)) == Some(symbol)
  {
    var url := TradesUrl(symbol, from, to, tickSize);
    assert FirstQuery(symbol) == |symbol|;
    assert symbol[..|symbol|] == symbol;
  }

  /** Without escaping, a '?' in the symbol is taken as the start of the query:
      the symbol "A?B" reads back as "A". */
  lemma TradesSymbolNotEscaped()
    ensures TradesSymbol(TradesUrl("A?B", "f", "t", "1h")) == Some("A")
  {
    var symbol := "A?B";
    assert symbol[0] == 'A' && symbol[1] == '?';
    assert FirstQuery(symbol) == 1;
    assert symbol[..1] == "A";
  }
}
