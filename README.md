# market-dashboard core, modelled in Dafny

The dashboard shows a live candle feed and a historical candle query for a traded
symbol. This project models the logic under the charts:

- the live-feed hook (`useLiveData`): a rolling window of at most 100 points,
  and the connection lifecycle driven by `connect`, `disconnect`, the socket
  events open / message / error / close, the reconnect timer, the symbol-change
  effect and `clearData`;
- the historical query hook (`usePastData`): the `isLoading` / `error` / `data`
  slots around one fetch, and `clearData`;
- the historical chart's non-drawing logic (`PastDataChart`): the summary
  statistics, the end-of-day normalisation of the `to` bound in `handleFetch`,
  the label pattern per tick size, the volume-bar colours and the point radius;
- the URL builders and endpoint bases (`config/api.ts`) and the record types
  and constant tables (`types/index.ts`).

Prices and volumes are `real`; times and trade counts are `int`.

Modules, one per source file plus helpers:

| file | module | models |
|---|---|---|
| types.dfy | `Types` | `src/types/index.ts` |
| api.dfy | `Api` | `src/config/api.ts` |
| rolling_window.dfy | `RollingWindow` | the window updater in `src/hooks/useLiveData.ts` |
| live_feed.dfy | `LiveFeed` | the connection lifecycle of `src/hooks/useLiveData.ts`, as transition functions over a state value, with traces |
| live_data_hook.dfy | `LiveDataHook` | the same hook as a class whose fields are its slots and refs; each handler method is proved to perform the `LiveFeed` transition |
| past_data.dfy | `PastData` | `src/hooks/usePastData.ts` |
| past_data_chart.dfy | `PastDataChart` | the statistics, choices and `handleFetch` of `src/components/PastDataChart.tsx` |
| dates.dfy | `Dates` | the parts of `Date` and of date-fns `format` those use |
| text.dfy, wrappers.dfy | `Text`, `Wrappers` | decimal digits and padding; `Option` and `Result` |

The live feed is modelled as the code behaves:

- Every socket's handlers write the same shared slots and refs. A socket's events
  carry its id, so an event from a socket that is no longer current still acts.
- `connect` closes the current socket only when it is OPEN. A socket that is
  still connecting stays alive beside the new one (`LiveFeed.ConnectClosesOnlyOpenSocket`).
- Such a socket may open later. It is not current, so `disconnect` does not close it.
  After a symbol change, its frames land in the new symbol's window
  (`LiveFeed.StaleSocketFeedsNewSymbol`).
- `connect` re-arms the one shared `shouldReconnect` flag. So after a symbol change,
  the old socket's late close still schedules a reconnect. That timer then calls the
  `connect` of the old render, which reopens the OLD symbol's stream
  (`LiveFeed.LateCloseReconnectsOldSymbol`, `LiveDataHook.LateCloseClient`).
- Scheduling a reconnect overwrites the timer ref and does not cancel the earlier
  timer. `disconnect` then cancels only the last one. The earlier timer can still
  fire after an unmount and open a new socket (`LiveFeed.OverwrittenTimerOutlivesDisconnect`,
  `LiveFeed.ReconnectAfterUnmountTrace`).

The code gives none of the following guarantees, and the model does not add them:

- There is no connection-state enumeration; there is only `isConnected`.
- There is no "exactly one pending timer" guarantee.
- `disconnect` does not stop later close events from scheduling reconnects once
  `connect` has run again.
- Fetches are not superseded. Whichever fetch settles last sets `data`. A success
  leaves `error` as it was, so an overlapping failure's message can stay beside
  the data (`PastData.OverlappingFetches`).
- `from <= to` is not checked.
- The `to` bound is set to 23:59:59.999. The query text carries only
  `yyyy-MM-ddTHH:mm:ss`, so the milliseconds never reach the server
  (`Dates.EndOfDayFormat`).
- `priceChangePercent` divides by the first open. When that open is 0, JavaScript
  gives an infinite or NaN value; the model gives `None` instead.

## Model

| member | source | states |
|---|---|---|
| `RollingWindow.Push` | src/hooks/useLiveData.ts:57-63 | after a push the window holds at most 100 points, and they are the last min(n+1, 100) of old window ++ [new point] |
| `RollingWindow.PushKeepsOrder` | src/hooks/useLiveData.ts:58-61 | a push ends with the new point, preceded by a suffix of the old window in its order: eviction only drops from the front |
| `RollingWindow.PushBelowAndAtCapacity` | src/hooks/useLiveData.ts:58-62 | below 100 points a push appends and drops nothing; at 100 it drops exactly the oldest |
| `RollingWindow.PushAllIsLastN` | src/hooks/useLiveData.ts:57-63 | from an empty window, any arrival sequence leaves exactly its last min(k, 100) points, oldest first |
| `LiveFeed.StepKeepsInv` | src/hooks/useLiveData.ts:26-108 | every handler keeps the invariant: window of at most 100, current socket exists, timer ids issued, each socket opened at its symbol's stream URL |
| `LiveFeed.RunKeepsWindowBounded` | src/hooks/useLiveData.ts:15 | along any deliverable event sequence the window never holds more than 100 points |
| `LiveFeed.MountState` | src/hooks/useLiveData.ts:17-99 | mounting leaves an empty window, the flag set, not connected, and one connecting socket for the symbol as current |
| `LiveFeed.DecodedFrame` | src/hooks/useLiveData.ts:44-63 | a decoded frame sets `lastCandle` to the candle and pushes the point with `time = closeTime` and the candle's figures; nothing else changes |
| `LiveFeed.MalformedFrame` | src/hooks/useLiveData.ts:43-66 | a frame that does not decode leaves the whole state unchanged |
| `LiveFeed.OnOpen` | src/hooks/useLiveData.ts:36-40 | `onopen` makes its socket open and changes no other socket, the window, the timers, the current socket or the flag |
| `LiveFeed.OpenState` | src/hooks/useLiveData.ts:36-40 | open sets connected and clears any earlier error |
| `LiveFeed.OnMessage` | src/hooks/useLiveData.ts:42-67 | a decoded frame leaves a window of at most 100 points ending with the candle's point; no frame touches sockets, timers, `isConnected` or `error` |
| `LiveFeed.OnError` | src/hooks/useLiveData.ts:69-72 | `onerror` changes no socket, no timer, none of the three refs (current socket, timer, `shouldReconnect`), and not the window or the last candle |
| `LiveFeed.ErrorState` | src/hooks/useLiveData.ts:69-72 | an error from a socket in any state but closed sets "WebSocket connection error" and disconnected; the socket keeps its state |
| `LiveFeed.OnClose` | src/hooks/useLiveData.ts:74-81 | `onclose` makes its socket closed and the feed disconnected; every other socket and every timer already issued stays as it was (a new timer never cancels an old one); the socket ref still names the socket, and flag, window, last candle and error stay |
| `LiveFeed.TimerFires` | src/hooks/useLiveData.ts:77-80 | a fired timer leaves the pending set, re-arms the flag, and makes a new socket for its captured symbol current; the timer ref is not cleared |
| `LiveFeed.Connect` | src/hooks/useLiveData.ts:26-34 | `connect` appends one connecting socket for the symbol's stream URL and makes it current, arms the flag, and leaves window, timers, `isConnected` and `error` |
| `LiveFeed.Disconnect` | src/hooks/useLiveData.ts:84-95 | `disconnect` leaves flag off, no current socket, no timer ref, disconnected, no new timer; window, last candle, error and symbol stay |
| `LiveFeed.ChangeSymbol` | src/hooks/useLiveData.ts:97-104 | a symbol change leaves the new symbol, an empty window, the flag armed, disconnected and no timer ref; the last candle and the error are not reset |
| `LiveFeed.CloseSchedulesIffFlag` | src/hooks/useLiveData.ts:74-81 | close always sets disconnected and closes the socket; it adds a new pending 3000 ms timer for the socket's symbol, named by the ref, if and only if `shouldReconnect` holds |
| `LiveFeed.DisconnectState` | src/hooks/useLiveData.ts:84-95 | disconnect clears the flag, cancels the timer the ref names, closes and forgets the current socket, leaves disconnected and the window untouched |
| `LiveFeed.DisconnectIdempotent` | src/hooks/useLiveData.ts:84-95 | disconnecting twice gives the same state as once |
| `LiveFeed.ChangeSymbolClearsWindow` | src/hooks/useLiveData.ts:97-108 | a symbol change empties the window before connecting for the new symbol; `clearData` empties it |
| `LiveFeed.StaleSocketFeedsNewSymbol` | src/hooks/useLiveData.ts:27-44 | a socket left connecting by `reconnect` that then opens is not closed by a symbol change, and its frame fills the new symbol's window |
| `LiveFeed.ConnectClosesOnlyOpenSocket` | src/hooks/useLiveData.ts:27-34 | connect puts a new connecting socket in place of the current one; the old one starts closing if it was open and otherwise keeps its state, so a connecting one stays alive |
| `LiveFeed.LateCloseReconnectsOldSymbol` | src/hooks/useLiveData.ts:31 | after a symbol change, the old socket's late close schedules a reconnect whose firing makes a socket for the old symbol current |
| `LiveFeed.OverwrittenTimerOutlivesDisconnect` | src/hooks/useLiveData.ts:77 | two closes under the flag leave two timers; disconnect cancels only the last; the first then re-arms the flag and opens a socket |
| `LiveFeed.ReconnectAfterUnmountTrace` | src/hooks/useLiveData.ts:26-104 | from mount: reconnect while connecting, both sockets close, unmount, the first timer fires: a new socket is opened and the flag is set again |
| `LiveDataHook.LiveData.constructor` | src/hooks/useLiveData.ts:17-99 | the object starts in the mounted state: the slots and refs of lines 17-24, then the effect of lines 97-99 |
| `LiveDataHook.LiveData.Connect` | src/hooks/useLiveData.ts:26-34 | updates the fields exactly as `LiveFeed.Connect` |
| `LiveDataHook.LiveData.CloseSocketAt` | src/hooks/useLiveData.ts:28 | `close()` moves a connecting or open socket to closing and nothing else |
| `LiveDataHook.LiveData.Disconnect` | src/hooks/useLiveData.ts:84-95 | updates the fields exactly as `LiveFeed.Disconnect` and keeps the invariant |
| `LiveDataHook.LiveData.SetSymbol` | src/hooks/useLiveData.ts:97-104 | the cleanup then effect of a symbol change, as `LiveFeed.ChangeSymbol`, keeping the invariant |
| `LiveDataHook.LiveData.Reconnect` | src/hooks/useLiveData.ts:116 | the exposed `reconnect` is `connect` for the current symbol |
| `LiveDataHook.LiveData.ClearData` | src/hooks/useLiveData.ts:106-108 | empties the window only |
| `LiveDataHook.LiveData.HandleOpen` | src/hooks/useLiveData.ts:36-40 | as `LiveFeed.OnOpen`, keeping the invariant |
| `LiveDataHook.LiveData.HandleMessage` | src/hooks/useLiveData.ts:42-67 | as `LiveFeed.OnMessage`, keeping the invariant |
| `LiveDataHook.LiveData.HandleError` | src/hooks/useLiveData.ts:69-72 | as `LiveFeed.OnError`, keeping the invariant |
| `LiveDataHook.LiveData.HandleClose` | src/hooks/useLiveData.ts:74-81 | as `LiveFeed.OnClose`, keeping the invariant |
| `LiveDataHook.LiveData.FireTimer` | src/hooks/useLiveData.ts:77-80 | the timer leaves the pending set and calls `connect` for its captured symbol, as `LiveFeed.TimerFires` |
| `LiveDataHook.LateCloseClient` | src/hooks/useLiveData.ts:74-81 | on the object: open, change symbol, old socket closes, timer fires: the current socket is the old symbol's stream |
| `PastData.Request` | src/hooks/usePastData.ts:17-19 | the URL carries the two formatted bounds and the tick size; it fails with "Invalid time value" exactly when a bound is an invalid date |
| `PastData.Settle` | src/hooks/usePastData.ts:21-32 | the result is the decoded array exactly when the status is 2xx and the body decodes |
| `PastData.SettleMessages` | src/hooks/usePastData.ts:23-32 | a non-ok status gives "HTTP error! status: <status>"; an Error thrown by `fetch` or by decoding a 2xx body gives its message; any other thrown value "Failed to fetch data"; a decoded 2xx body gives its array |
| `PastData.Status500Message` | src/hooks/usePastData.ts:24 | a 500 response leaves the message "HTTP error! status: 500" |
| `PastData.HttpErrorMessageNamesStatus` | src/hooks/usePastData.ts:24 | the status is read back from the HTTP error message, so different statuses give different messages |
| `PastData.PastDataHook.constructor` | src/hooks/usePastData.ts:7-9 | no data, not loading, no error |
| `PastData.PastDataHook.BeginFetch` | src/hooks/usePastData.ts:13-19 | starting sets loading and clears the error, leaving data, and issues the URL; a bound that does not format ends the fetch at once with its message and empty data |
| `PastData.PastDataHook.SettleFetch` | src/hooks/usePastData.ts:27-35 | success replaces data wholesale; failure sets the message and empties data; loading is off on every path |
| `PastData.PastDataHook.FetchData` | src/hooks/usePastData.ts:11-38 | for one fetch nothing overlaps: loading ends off, a non-null error implies empty data, and data or error is what the server's answer gives |
| `PastData.PastDataHook.ClearData` | src/hooks/usePastData.ts:40-43 | empties data and clears the error |
| `PastData.OverlappingFetches` | src/hooks/usePastData.ts:11-38 | of two overlapping fetches over valid bounds, both issued, the one settling last sets the data shown, and the other's error message stays |
| `Dates.FormatLocal` | src/hooks/usePastData.ts:17-18 | formatting fails with "Invalid time value" exactly for an invalid date |
| `Dates.FormatParseRoundTrip` | src/hooks/usePastData.ts:17-18 | the formatted bound reads back as the same date-time to the second |
| `Dates.SetHours` | src/components/PastDataChart.tsx:54 | `setHours` keeps the day and sets the time of day; an invalid date stays invalid |
| `Dates.JsDate.SetHoursInPlace` | src/components/PastDataChart.tsx:54 | the in-place update of the `Date` object |
| `Dates.FormatIgnoresMilliseconds` | src/hooks/usePastData.ts:17-18 | two dates that differ only in milliseconds format to the same text |
| `Dates.EndOfDayFormat` | src/components/PastDataChart.tsx:53-54 | the end of a day formats as that day followed by T23:59:59 |
| `PastDataChart.HandleFetch` | src/components/PastDataChart.tsx:51-56 | the fetch is issued with `from` as parsed and `to` moved to the end of its day: loading, error cleared, data kept; or, for an invalid day, not issued, with the message, loading off and data empty |
| `PastDataChart.HandleFetchQuery` | src/components/PastDataChart.tsx:51-56 | for valid days the query is from = the formatted parsed day, to = that day's date at T23:59:59 |
| `PastDataChart.Stats` | src/components/PastDataChart.tsx:252-259 | statistics are absent exactly when there are no bars |
| `PastDataChart.MaxHigh` | src/components/PastDataChart.tsx:253 | at least every high, and equal to one of them |
| `PastDataChart.MinLow` | src/components/PastDataChart.tsx:254 | at most every low, and equal to one of them |
| `PastDataChart.StatsExtremes` | src/components/PastDataChart.tsx:253-254 | the statistics' high and low bound every bar and are attained |
| `PastDataChart.StatsLowBelowHigh` | src/components/PastDataChart.tsx:253-254 | if every bar has low <= high, then the statistics' low <= high |
| `PastDataChart.StatsAverage` | src/components/PastDataChart.tsx:255-256 | average volume times the count is the volume sum; total trades is the trade-count sum |
| `PastDataChart.SumVolumeAppend` | src/components/PastDataChart.tsx:255 | the volume sum of a concatenation is the sum of the sums |
| `PastDataChart.SumTradesAppend` | src/components/PastDataChart.tsx:256 | the trade-count sum of a concatenation is the sum of the sums |
| `PastDataChart.TotalsFromFirst` | src/components/PastDataChart.tsx:255-256 | the left fold equals the first bar plus the fold of the rest |
| `PastDataChart.StatsChange` | src/components/PastDataChart.tsx:257-258 | change = last close - first open; percent = change / first open * 100, absent exactly when the first open is 0 |
| `PastDataChart.StatsExample` | src/components/PastDataChart.tsx:252-259 | [open 100 close 110, open 110 close 90] gives change -10 and -10% |
| `PastDataChart.LabelPattern` | src/components/PastDataChart.tsx:58-66 | the label pattern is one of 'MMM dd', 'MMM dd HH:mm' and 'HH:mm' |
| `PastDataChart.LabelPatternChoice` | src/components/PastDataChart.tsx:58-66 | 'MMM dd' exactly for 1d, 'MMM dd HH:mm' exactly for 4h and 1h, 'HH:mm' exactly for the rest |
| `PastDataChart.VolumeColors` | src/components/PastDataChart.tsx:112-117 | every volume bar is either the green or the red pair of fill and border |
| `PastDataChart.VolumeColorsChoice` | src/components/PastDataChart.tsx:112-117 | green fill and border exactly when close >= open, red exactly otherwise |
| `PastDataChart.PointRadius` | src/components/PastDataChart.tsx:78 | the point radius is 0 or 2 |
| `PastDataChart.PointRadiusChoice` | src/components/PastDataChart.tsx:78 | radius 0 exactly for more than 100 bars, 2 otherwise |
| `Api.TradesUrl` | src/config/api.ts:11-18 | the trades URL starts with the base and "/trades/", and reads back the symbol up to its first '?', since nothing is escaped |
| `Api.LiveWebSocketUrl` | src/config/api.ts:20-22 | the stream URL starts with the base and "/ws/live@", and reads back exactly the symbol |
| `Api.UrlsStartWithBase` | src/config/api.ts:5-21 | both URLs start with their configured base |
| `Api.WsSymbolRoundTrip` | src/config/api.ts:20-22 | the symbol is the suffix after "/ws/live@", so the stream URL is injective in the symbol |
| `Api.TradesSymbolRoundTrip` | src/config/api.ts:11-18 | for a symbol without '?', the text between "/trades/" and the first '?' is the symbol |
| `Api.TradesSymbolNotEscaped` | src/config/api.ts:17 | nothing is escaped: the symbol "A?B" reads back as "A" |
| `Types.LiveCandleIsBarPlusSymbol` | src/types/index.ts:3-24 | a live candle is exactly a bar plus a symbol, both ways round |
| `Types.TickSizeText` | src/types/index.ts:40 | each tick size's text is two or three characters long, starts with a digit from 1 to 9, and ends with s, m, h or d |
| `Types.TickSizeTextInjective` | src/types/index.ts:40 | each tick size has its own text |
| `Types.TickSizeOptionsShape` | src/types/index.ts:42-49 | six options in the order 1m, 5m, 15m, 1h, 4h, 1d; 1ms and 1s are not offered |
| `Types.SymbolsDistinct` | src/types/index.ts:51 | five pairwise-distinct symbols |

## Left out

- Rendering: JSX, Chart.js registration and options, CSS, `LiveChart.tsx` and `App.tsx`.
- The browser: the WebSocket, `fetch`, `JSON.parse`, `setTimeout` and `clearTimeout`
  are abstract events and outcomes. A socket's ready state follows the browser's
  rules only as far as the hook can observe them: open only from connecting,
  messages only while open, error and close while not closed.
- The order of browser events: the WebSocket standard fires error and then close in
  the same task, and the ready state is already closed during error. The model
  leaves the state to the close event. No code reads it in between.
- Traces admit more than React delivers, and the model does not restrict them. The invariant
  lemmas need only a superset of real traces. Two kinds of event are admitted that React
  never delivers:
  - a symbol change to the same symbol, for which React re-runs no effect;
  - events after `Unmounted`. React discards state updates once the hook is unmounted,
    so after it only the refs, the sockets and the timers stand for anything; the
    window, `isConnected`, `error` and `lastCandle` do not.
- Asynchronous interleaving: events are a sequential trace. React's batching of state
  updates is not modelled, because every handler's updates are applied in order.
- Live frames that are neither a full candle nor unparseable are not modelled. The model has only
  two kinds: a frame that decodes to a full candle, and a malformed frame. Two cases fall outside:
  - A frame that parses as JSON but lacks fields: the point is pushed with `undefined` figures.
  - A `null` frame: `setLastCandle(null)` runs, then reading `closeTime` throws and is caught.
    The last candle is cleared and the window is kept.
- Historical bodies that are not an array of bars are not modelled. A 2xx body that parses as
  JSON but is not an array of bars is stored as it is; the model's `Json` body is always an
  array of bars.
- Date parsing, time zones and calendar arithmetic. `new Date("yyyy-MM-dd")` is
  taken as already parsed. In zones west of UTC it gives the previous local day;
  the model does not see that.
- `Dates.JsDate.SetHoursInPlace`: covers only in-range arguments. It does not model
  JavaScript's rollover of out-of-range ones; the hook always passes 23, 59, 59, 999.
- `Dates.SetHours`: requires in-range arguments for the same reason, and does not model
  the rollover either.
- date-fns beyond the one pattern the query uses. The axis label pattern is chosen
  (`LabelPattern`), but the formatting of labels is not modelled.
- Floating point: `real` replaces IEEE doubles. Rounding, `toFixed`, `toLocaleString`
  and `Math.max` over very long arrays (the engine's argument limit) are not modelled.
- `console.log` / `console.error` calls.
- The unused `LiveTradeData` type.
