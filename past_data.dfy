/** The historical query hook: `isLoading`, `error` and `data` around one
    fetch. The network and the JSON body are abstract outcomes; the part of
    `fetchData` before its first `await` (clear the error, start loading,
    format the bounds, build the URL) and the part after it (apply the result,
    stop loading) are separate steps, so that overlapping fetches can be
    written down: the fetch that settles last wins. */
module PastData {

  import opened Wrappers
  import opened Types
  import opened Text
  import Api
  import Dates

  /** A value thrown by `fetch` or by decoding the body: an `Error` object
      with its message, or anything else. */
  datatype Thrown = ErrorObject(message: string) | OtherValue

  /** What reading the body as JSON gave. */
  datatype Body = Json(candles: seq<CandleData>) | BadJson(thrown: Thrown)

  /** What the request led to: `fetch` rejected, or a response with a status. */
  datatype FetchOutcome = Rejected(thrown: Thrown) | Response(status: nat, body: Body)

  const FallbackMessage: string := "Failed to fetch data"
  const HttpErrorPrefix: string := "HTTP error! status: "

  /** `response.ok`. */
  predicate IsOk(status: nat) {
    200 <= status <= 299
  }

  /** The message shown for a caught value. */
  function MessageOf(t: Thrown): string {
    match t
    case ErrorObject(m) => m
    case OtherValue => FallbackMessage
  }

  function HttpErrorMessage(status: nat): string {
    HttpErrorPrefix + Digits(status)
  }

  /** The status is read back from the message of a non-ok response, so two
      statuses never share a message. */
  lemma HttpErrorMessageNamesStatus(status: nat, other: nat)
    ensures var m := HttpErrorMessage(status);
            HttpErrorPrefix <= m && AllDigits(m[|HttpErrorPrefix|..]) && DigitsValue(m[|HttpErrorPrefix|..]) == status
    ensures HttpErrorMessage(status) == HttpErrorMessage(other) ==> status == other
  {
    var m := HttpErrorMessage(status);
    assert m[|HttpErrorPrefix|..] == Digits(status);
    DigitsRoundTrip(status);
    var m' := HttpErrorMessage(other);
    assert m'[|HttpErrorPrefix|..] == Digits(other);
    DigitsRoundTrip(other);
  }

  /** The synchronous part of `fetchData`: both bounds formatted, then the URL;
      a bound that cannot be formatted throws inside the `try`. */
  function Request(symbol: string, from: Dates.DateValue, to: Dates.DateValue, tickSize: TickSize): (r: Result<string, string>)
    ensures r.Err? <==> from.Invalid? || to.Invalid?
    ensures r.Err? ==> r.error == Dates.InvalidTimeValue
    ensures r.Ok? ==> r.value == Api.TradesUrl(symbol, Dates.FormatLocal(from).value, Dates.FormatLocal(to).value, TickSizeText(tickSize))
  {
    var fromStr := Dates.FormatLocal(from);
    if fromStr.Err? then Err(fromStr.error)
    else
      var toStr := Dates.FormatLocal(to);
      if toStr.Err? then Err(toStr.error)
      else Ok(Api.TradesUrl(symbol, fromStr.value, toStr.value, TickSizeText(tickSize)))
  }

  /** The part after the `await`: the decoded array, or the message the
      `catch` sets. */
  function Settle(outcome: FetchOutcome): (r: Result<seq<CandleData>, string>)
    ensures r.Ok? <==> outcome.Response? && IsOk(outcome.status) && outcome.body.Json?
  {
    match outcome
    case Rejected(t) => Err(MessageOf(t))
    case Response(status, body) =>
      if !IsOk(status) then Err(HttpErrorMessage(status))
      else match body
        case Json(candles) => Ok(candles)
        case BadJson(t) => Err(MessageOf(t))
  }

  /** Each failure gives its message: a non-ok status its HTTP message
      whatever the body, a thrown `Error` its own message, anything else
      thrown the fallback; a good response its array unchanged. */
  lemma SettleMessages(outcome: FetchOutcome)
    ensures outcome.Response? && !IsOk(outcome.status) ==>
              Settle(outcome) == Err("HTTP error! status: " + Digits(outcome.status))
    ensures outcome.Rejected? ==>
              Settle(outcome) == Err(if outcome.thrown.ErrorObject? then outcome.thrown.message else "Failed to fetch data")
    ensures outcome.Response? && IsOk(outcome.status) && outcome.body.BadJson? && outcome.body.thrown.ErrorObject? ==>
              Settle(outcome) == Err(outcome.body.thrown.message)
    ensures outcome.Response? && IsOk(outcome.status) && outcome.body.BadJson? && outcome.body.thrown.OtherValue? ==>
              Settle(outcome) == Err("Failed to fetch data")
    ensures outcome.Response? && IsOk(outcome.status) && outcome.body.Json? ==>
              Settle(outcome) == Ok(outcome.body.candles)
  {
  }

  class PastDataHook {
    var data: seq<CandleData>
    var isLoading: bool
    var error: Option<string>

    constructor ()
      ensures data == [] && !isLoading && error == None
    {
      data := [];
      isLoading := false;
      error := None;
    }

    /** `fetchData` up to its `await`. When the bounds format, the request is
        issued: loading, error cleared, data untouched. When one does not, the
        `catch` and `finally` run at once. */
    method BeginFetch(symbol: string, from: Dates.DateValue, to: Dates.DateValue, tickSize: TickSize)
      returns (request: Option<string>)
      modifies this
      ensures Request(symbol, from, to, tickSize).Ok? ==>
                request == Some(Request(symbol, from, to, tickSize).value) &&
                isLoading && error == None && data == old(data)
      ensures Request(symbol, from, to, tickSize).Err? ==>
                request == None && !isLoading && error == Some(Dates.InvalidTimeValue) && data == []
    {
      isLoading := true;
      error := None;
      var url := Request(symbol, from, to, tickSize);
      match url
      case Ok(u) =>
        request := Some(u);
      case Err(m) =>
        request := None;
        error := Some(m);
        data := [];
        isLoading := false;
    }

    /** `fetchData` after its `await`: success replaces the data wholesale and
        leaves the error as it is; failure sets the message and empties the
        data; loading stops either way. */
    method SettleFetch(outcome: FetchOutcome)
      modifies this
      ensures !isLoading
      ensures Settle(outcome).Ok? ==> data == Settle(outcome).value && error == old(error)
      ensures Settle(outcome).Err? ==> data == [] && error == Some(Settle(outcome).error)
    {
      var result := Settle(outcome);
      match result {
        case Ok(candles) =>
          data := candles;
        case Err(message) =>
          error := Some(message);
          data := [];
      }
      isLoading := false;
    }

    /** One fetch that nothing overlaps, with `server` answering the request. */
    method FetchData(symbol: string, from: Dates.DateValue, to: Dates.DateValue, tickSize: TickSize,
                     server: string -> FetchOutcome)
      modifies this
      ensures !isLoading
      ensures error.Some? ==> data == []
      ensures var req := Request(symbol, from, to, tickSize);
              (req.Err? ==> error == Some(req.error)) &&
              (req.Ok? ==> var r := Settle(server(req.value));
                           (r.Ok? ==> data == r.value && error == None) &&
                           (r.Err? ==> error == Some(r.error)))
    {
      var request := BeginFetch(symbol, from, to, tickSize);
      if request.Some? {
        SettleFetch(server(request.value));
      }
    }

    /** `clearData`. */
    method ClearData()
      modifies this
      ensures data == [] && error == None && isLoading == old(isLoading)
    {
      data := [];
      error := None;
    }
  }

  /** Two overlapping fetches over valid bounds, the first settling last: its
      data is what is shown, and the later request's failure message stays
      beside it. */
  method OverlappingFetches(first: seq<CandleData>, from: Dates.DateValue, to: Dates.DateValue)
    returns (shown: seq<CandleData>, message: Option<string>)
    requires from.At? && to.At?
    ensures shown == first
    ensures message == Some(HttpErrorMessage(500))
  {
    var hook := new PastDataHook();
    var a := hook.BeginFetch("BTCUSDT", from, to, H1);
    var b := hook.BeginFetch("ETHUSDT", from, to, H1);
    assert a.Some? && b.Some?;
    hook.SettleFetch(Response(500, Json([])));
    hook.SettleFetch(Response(200, Json(first)));
    shown, message := hook.data, hook.error;
  }

  /** The message a 500 response leaves. */
  lemma Status500Message()
    ensures HttpErrorMessage(500) == "HTTP error! status: 500"
  {
    assert Digits(5) == "5";
    assert DigitChar(0) == '0';
    assert Digits(50) == "50";
    assert Digits(500) == "500";
  }
}
