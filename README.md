# BVMT trading assistant — a Dafny model

This project models the core of a trading assistant for the Bourse des
Valeurs Mobilières de Tunis (BVMT). The assistant has three parts:

- **Python backend.** It covers:
  - the decision rule that turns predictions, sentiment and anomalies into BUY/SELL/HOLD;
  - investor profiling from the investor's trades, alerts and simulator trades;
  - rule-based anomaly detection on prices and volumes;
  - daily sentiment aggregation;
  - the REST routes for stocks, market, news, portfolio and the agent;
  - JWT authentication helpers;
  - the regulatory retrieval store of the agent;
  - the agent's tool-calling loop (model call, tool calls, back to the model);
  - the BVMT CSV loader;
  - the market data service.
- **NLP and ML side.** It covers:
  - the news scrapers and their aggregator;
  - the scraping scheduler;
  - the multilingual sentiment analyser;
  - the price predictor's feature and horizon logic;
  - the anomaly model's scoring and labelling.
- **React frontend.** It covers:
  - the API client and its hooks;
  - the language context and i18n lookup;
  - the chart transforms (candlestick, sparkline);
  - the news card;
  - the anomaly panel;
  - the investor pages (Market, Portfolio, Simulator, Profile);
  - the inspector pages (Monitoring, Anomalies, Investigations, Reports);
  - the agent chat panel;
  - the generated price data.

**How the source maps to Dafny.**

- Pure computations become functions with named results. Lemmas relate each one to its partner: an inverse, a preserved invariant or a reference definition.
- Code that updates state step by step becomes methods with loops. Each is proved equal to a specification function.
- Objects that update their own fields become classes: the scheduler, the retrieval store, the agent's graph cache, the CSV loader's database session, the news and portfolio tables, the sentiment service, the data hooks, and the stateful pages and panels (chat, anomalies, chart, language, monitoring, profile, simulator).
- Numbers are `real`, with explicit cases where the source relies on JavaScript's `||`, `NaN` or division by zero.
- Clocks, randomness, HTTP responses, database query results and model inference are parameters of the functions that use them.

## Model

| member | source | states |
|---|---|---|
| AgentRoutes.ValidateChat | backend/app/api/routes/agent.py:27-29 | a chat request is accepted unchanged iff its message has at least one character, otherwise 422 |
| AgentRoutes.FormatHistory | backend/app/api/routes/agent.py:32-35 | None iff the history is missing or empty; otherwise one role/content entry per message, in order |
| AgentRoutes.Frame | backend/app/api/routes/agent.py:45 | a chunk's event is exactly "data: ", the chunk and a blank line |
| AgentRoutes.FramesConcat | backend/app/api/routes/agent.py:43-45 | the stream of two runs of chunks is the concatenation of their streams |
| AgentRoutes.InvestmentAdvice | backend/app/api/routes/agent.py:50-69 | a ValueError from the tools gives 404 with its message, any other error 500; otherwise the stock, the tool results and the decision engine's recommendation on them |
| AgentGraph.MessageFor | backend/app/agent/graph.py:137-147 | an entry becomes a message iff it has non-empty content and role user, assistant or system; the message kind follows the role and keeps the content |
| AgentGraph.BuildMessages | backend/app/agent/graph.py:134-149 | the converted history followed by the user's message, or that message alone without history |
| AgentGraph.ConvertedKeepsOrder | backend/app/agent/graph.py:136-147 | one message per kept entry, in entry order |
| AgentGraph.ConvertedNonEmpty | backend/app/agent/graph.py:140-147 | no built message has empty content and none is a tool message |
| AgentGraph.SelectLlm | backend/app/agent/graph.py:30-53 | Groq iff its key is set; OpenAI iff only later keys decide and its key is set; Anthropic likewise; an error iff no key is set |
| AgentGraph.Answer | backend/app/agent/graph.py:125-128 | a state announces an answer only when its last message is an AI message with content |
| AgentGraph.StreamAgent | backend/app/agent/graph.py:121-131 | the loop yields exactly the contents of the messages the yield rule selects, starting with no last id |
| AgentGraph.YieldedNoRepeats | backend/app/agent/graph.py:128-131 | every yielded chunk is an AI message's content and no two consecutive yields share a message id |
| AgentGraph.RepeatedStateYieldsOnce | backend/app/agent/graph.py:129-131 | a state the graph emits twice is yielded once |
| AgentGraph.GraphCache.GetGraph | backend/app/agent/graph.py:105-112 | builds the graph on first use and keeps it; later calls return the cached graph; a failed build caches nothing |
| AgentGraph.GraphCache.constructor | backend/app/agent/graph.py:105 | the cache starts without a graph |
| AgentChat.LineData | frontend/src/components/agent/AgentChat.jsx:68-70 | a line contributes what follows `data: ` when it starts with it, and nothing otherwise |
| AgentChat.DataTextAppend | frontend/src/components/agent/AgentChat.jsx:67-82 | the data of the lines of a read accumulates line by line, in order |
| AgentChat.ResolvedText | frontend/src/components/agent/AgentChat.jsx:86-90 | the `response` field's text when that field is truthy; otherwise the `content` field's text when that is truthy; otherwise the apology |
| AgentChat.HistoryOf | frontend/src/components/agent/AgentChat.jsx:43-46 | the history holds one role/content message per message already shown, in order |
| AgentChat.ChatView.constructor | frontend/src/components/agent/AgentChat.jsx:8-28 | the panel opens with the greeting as the only message, an empty input and nothing loading |
| AgentChat.ReplyText | frontend/src/components/agent/AgentChat.jsx:52-97 | the last assistant message: the streamed answer; the catch's apology "... Veuillez reessayer." for a failed read, a rejected call, or a resolved value the code throws on (`null`, a truthy `body`, a `json` field that is not null); otherwise the resolved value's `response`/`content` text |
| AgentChat.ThrowingValuesApologize | frontend/src/components/agent/AgentChat.jsx:52-96 | a resolved `null`, and an object with `json: 1` and a `response`, show the catch's apology, while a `json` field that is null is skipped and the `response` is shown |
| AgentChat.ChatView.HandleSubmit | frontend/src/components/agent/AgentChat.jsx:30-101 | a blank input or a request in flight changes nothing; otherwise the trimmed message and the earlier history are sent, the input is cleared, the user message and then the reply's entries are appended, and loading ends |
| AgentChat.ReplyEntries | frontend/src/components/agent/AgentChat.jsx:52-97 | one assistant message with the reply's text (`ReplyText`: the streamed answer; the error apology for a read that fails mid-stream, a rejected request or a resolved value the code throws on), preceded by the answer streamed so far exactly when a read failed |
| AgentChat.ChatView.AppendStreamed | frontend/src/components/agent/AgentChat.jsx:52-83 | the streaming branch appends one assistant message holding the text accumulated over every read |
| AgentChat.ChatView.ApplyRead | frontend/src/components/agent/AgentChat.jsx:61-82 | one read extends the answer by its data lines and leaves the answer as the last message |
| AgentChat.FramesLines | backend/app/api/routes/agent.py:45 | the lines of a sequence of event frames are a data line and a blank line per frame |
| AgentChat.FrameLines | backend/app/api/routes/agent.py:45 | one frame in front of the rest adds its data line and a blank line |
| AgentChat.ReadOfFrames | frontend/src/components/agent/AgentChat.jsx:64-82 | a read made of whole frames gives back exactly the concatenation of its chunks |
| AgentChat.ConcatAppend | frontend/src/components/agent/AgentChat.jsx:70 | concatenating two lists of chunks is concatenating their concatenations |
| AgentChat.StreamRoundTrip | frontend/src/components/agent/AgentChat.jsx:52-83 | round trip with the server's framing: when every read delivers whole frames without newlines in the chunks, the answer shown is exactly the streamed text |
| AgentChat.ToJsonRoundTrip | frontend/src/components/agent/AgentChat.jsx:43-46 | a chat message written as JSON is read back as the same message |
| AgentChat.HistoryNeverArrives | frontend/src/services/api.js:84-87 | as written, the backend never receives the conversation history, whatever is sent |
| AgentChat.IntendedChatBody | backend/app/api/routes/agent.py:27-29 | the intended body carries the message under `message` |
| AgentChat.IntendedHistoryArrives | backend/app/api/routes/agent.py:27-29 | with the history under `history`, the backend receives exactly the history sent |
| AgentChat.StreamedChatShowsApology | frontend/src/services/api.js:20 | as written, every streamed answer ends as the error apology, because the event stream is parsed as JSON |
| AgentChat.FramesStartWithData | backend/app/api/routes/agent.py:45 | an event stream of at least one chunk starts with the letter `d` |
| AgentChat.DataIsNotJson | frontend/src/services/api.js:20 | a text starting with `d` cannot be a JSON value |
| AgentChat.IntendedChatShowsAnswer | frontend/src/components/agent/AgentChat.jsx:52-83 | with the body read as a stream, the panel shows exactly the concatenation of the streamed chunks |
| AnomaliesPage.SeverityColor | frontend/src/pages/inspector/Anomalies.jsx:7-12 | exactly the four severities critical, high, medium and low have a badge colour |
| AnomaliesPage.StatusColor | frontend/src/pages/inspector/Anomalies.jsx:14-19 | exactly the four statuses investigating, confirmed, reviewing and dismissed have a badge colour |
| AnomaliesPage.TypeLabel | frontend/src/pages/inspector/Anomalies.jsx:21-27 | a known type is shown by its label, any other type as itself |
| AnomaliesPage.Filtered | frontend/src/pages/inspector/Anomalies.jsx:34-41 | a row is shown exactly when its symbol or title contains the query, ignoring case, and each of the severity and status filters is 'all' or equal to the anomaly's |
| AnomaliesPage.EmptyState | frontend/src/pages/inspector/Anomalies.jsx:187 | the empty state appears exactly when no anomaly passes the filters |
| AnomaliesPage.NoFilterShowsAll | frontend/src/pages/inspector/Anomalies.jsx:30-41 | with the initial filters every anomaly is shown, in order |
| AnomaliesPage.FilteredInOrder | frontend/src/pages/inspector/Anomalies.jsx:34 | the rows keep the list's order |
| AnomaliesPage.CriticalCount | frontend/src/pages/inspector/Anomalies.jsx:56 | the critical badge is positive exactly when some anomaly is critical, and never exceeds the list |
| AnomaliesPage.InvestigatingCount | frontend/src/pages/inspector/Anomalies.jsx:59 | the investigating badge is positive exactly when some anomaly is under investigation, and never exceeds the list |
| AnomaliesPage.BadgesBoundFilteredRows | frontend/src/pages/inspector/Anomalies.jsx:34-59 | the badges count the unfiltered list: the rows shown under the critical (investigating) filter never exceed the critical (investigating) badge |
| MlAnomaly.ResolveInputs | ml/src/anomaly.py:120-132 | each missing key takes its documented default: open, high, low and the previous close default to the close, the 20-day volume average to the volume |
| MlAnomaly.CalculateFeatures | ml/src/anomaly.py:119-149 | every feature is its formula when its divisor is positive and the fixed fallback (0 or 1) otherwise |
| MlAnomaly.SeverityFor | ml/src/anomaly.py:100-107 | HIGH iff the score is at least 0.6, MEDIUM iff in [0.3, 0.6), LOW iff in (0, 0.3), NONE iff not positive |
| MlAnomaly.Detect | ml/src/anomaly.py:53-117 | the result's alerts are the four rules' alerts in order, is_anomaly iff there is one, the severity is the tier of the summed weights |
| MlAnomaly.FourRulesPresence | ml/src/anomaly.py:59-98 | with four rules of distinct kinds, each kind is present exactly when its rule fired |
| MlAnomaly.FourRulesScore | ml/src/anomaly.py:59-98 | the severity score is the sum of the fired rules' weights |
| MlAnomaly.RulesFire | ml/src/anomaly.py:59-98 | volume fires iff z > 3, price iff abs move > 0.05, gap iff abs gap > 0.03, the model only when both pickles are loaded and it predicts −1; weights 0.3, 0.3, 0.1, 0.2, so the score never exceeds 0.9 |
| MlAnomaly.DetectRules | ml/src/anomaly.py:53-117 | the same presence and score facts for a whole detection |
| MlAnomaly.AlertSeverities | ml/src/anomaly.py:60-100 | a volume alert is HIGH iff z > 5, a price alert HIGH iff the move exceeds 0.10 and says "up" iff the change is positive, gap and model alerts are MEDIUM |
| MlAnomaly.ModelIgnoredUnlessLoaded | ml/src/anomaly.py:84 | without both the model and the scaler the verdict never affects the result |
| MlAnomaly.DetectBatch | ml/src/anomaly.py:151-160 | one detection per item, in input order |
| AnomalyService.FallbackDetect | backend/app/services/anomaly.py:78-120 | a volume alert iff the ratio exceeds 3, a price alert iff the absolute move exceeds 0.05, all alerts MEDIUM, at most two, is_anomaly iff any, empty features |
| AnomalyService.FallbackNeverLow | backend/app/services/anomaly.py:104-110 | the fallback scores 0, 0.3 or 0.6, so it reports NONE, MEDIUM or HIGH, never LOW, and HIGH exactly when both rules fire |
| AnomalyService.MissingStatsAreQuiet | backend/app/services/anomaly.py:82-95 | without (or with a zero) 20-day average volume the ratio is 1 and no volume spike is raised; without a previous close the move is 0 |
| AnomalyService.Detect | backend/app/services/anomaly.py:68-76 | the loaded detector's answer when there is one, otherwise the fallback |
| AnomalyService.DetectBatch | backend/app/services/anomaly.py:122-137 | without a detector one fallback per item with a missing "historical" read as {}; with one, a KeyError for an item lacking "historical", otherwise one detection per item in order |
| ApiClient.ApiBase | frontend/src/services/api.js:1 | the configured URL when it is non-empty, otherwise http://localhost:8000 |
| ApiClient.ConfigFor | frontend/src/services/api.js:5-11 | method and body are the caller's; without caller headers the JSON content type is sent, with them the caller's headers replace it entirely |
| ApiClient.OwnHeadersDropContentType | frontend/src/services/api.js:5-11 | a caller sending its own headers loses the JSON content type |
| ApiClient.FieldIn | frontend/src/services/api.js:17 | a field's value when some entry has that key, none iff no entry has it |
| ApiClient.Request | frontend/src/services/api.js:3-21 | an ok JSON response gives its body; a failure gives an error: "Request failed" for a non-JSON body, a `null` body the TypeError of reading its `detail`; otherwise the body's truthy detail as `String()` renders it (an array joined by commas, a number through `show`) or "HTTP <status>" |
| ApiClient.DetailArrayText | frontend/src/services/api.js:17-18 | a validation detail that is a list of texts without commas shows as those texts joined by commas, and splitting the message at the commas gives them back |
| ApiClient.DetailObjects | frontend/src/services/api.js:18 | a detail made of two objects shows as "[object Object],[object Object]" |
| ApiClient.NewsQueryPairs | frontend/src/services/api.js:48-53 | at most five pairs, only for truthy parameters, with the endpoint's key names |
| ApiClient.QueryString | frontend/src/services/api.js:54 | no pairs give the empty string |
| ApiClient.NewsListPath | frontend/src/services/api.js:47-56 | "/api/news" with no parameter set, otherwise "?" and the query string |
| ApiClient.NewsQueryShape | frontend/src/services/api.js:48-55 | no parameters give no query string; all five give five pairs in the order limit, stock_code, source, language, days |
| ApiClient.TradeBody | frontend/src/services/api.js:65-74 | buy and sell post exactly stock_code, quantity and price |
| ApiClient.ChatBody | frontend/src/services/api.js:84-87 | chat posts exactly the message and the second argument under stock_code (null when absent), and never a history |
| ApiClient.LiveMoversPath | frontend/src/services/api.js:33 | the default limit is 10 |
| ApiClient.HistoryPath | frontend/src/services/api.js:39 | the default history is 30 days |
| ApiClient.ForStockPath | frontend/src/services/api.js:57 | the default stock news limit is 10 |
| ApiClient.StockSentimentPath | frontend/src/services/api.js:58 | the default sentiment period is 7 days |
| ApiClient.Url | frontend/src/services/api.js:4 | the base URL followed by the endpoint |
| UseApi.OrZero | frontend/src/services/useApi.js:53-55 | `x || 0` on an optional number |
| UseApi.OrElse | frontend/src/services/useApi.js:152-153 | `x || fallback`: the value unless it is missing or zero |
| UseApi.JsDiv | frontend/src/services/useApi.js:155 | a finite quotient iff the divisor is non-zero, and then quotient × divisor = dividend |
| UseApi.ErrorMessage | frontend/src/services/useApi.js:19 | the rejection's message, or "An error occurred" when it is empty |
| UseApi.ApiCall.constructor | frontend/src/services/useApi.js:7-9 | no data, no error, loading iff immediate |
| UseApi.ApiCall.Execute | frontend/src/services/useApi.js:11-24 | passes the outcome on; success stores the value and clears the error, failure keeps the data and stores the message; loading ends either way |
| UseApi.ApiCall.Mount | frontend/src/services/useApi.js:26-30 | an immediate hook executes once, swallowing the rejection; a lazy one changes nothing |
| UseApi.StockViewSigns | frontend/src/services/useApi.js:49-59 | the money change has the sign of the percentage for a positive price; a stock without a price shows 0 and no change; change × 100 = price × percentage |
| UseApi.StockViews | frontend/src/services/useApi.js:49-59 | one view per listed stock, in order |
| UseApi.StocksHook.Fetched | frontend/src/services/useApi.js:46-68 | a non-empty listing replaces the list; an empty one installs the mock list and raises the flag; a failure keeps the list, stores the message and raises the flag; loading ends |
| UseApi.SummaryOf | frontend/src/services/useApi.js:84-100 | the TUNINDEX line carries the overview's value and percentage and ten times it as change; the movers are passed on; volume, trades and capitalisation are 0 |
| UseApi.SummaryOfOverview | frontend/src/services/useApi.js:84-94 | over the backend's overview, the TUNINDEX change is exactly the index's distance from its 9000 base, and the TUNINDEX20 line moves half as much in money and 0.95 times in percent |
| UseApi.MarketHook.Fetched | frontend/src/services/useApi.js:80-108 | an overview replaces the summary; a failure keeps it and raises the flag; loading ends |
| UseApi.PredictionHook.Load | frontend/src/services/useApi.js:118-132 | no request and no change for a missing or empty code; otherwise the prediction or the error is stored and loading ends |
| UseApi.HoldingViewAsWritten | frontend/src/services/useApi.js:152-155 | as written: the shown price falls back to the average cost but the gain uses the raw price, read as 0 when null |
| UseApi.NullPriceShowsTotalLoss | frontend/src/services/useApi.js:152-155 | 10 shares bought at 20 with no close show a loss of 200 as written while valued at cost, and no gain when corrected |
| UseApi.HoldingViewOf | frontend/src/services/useApi.js:147-156 | the corrected mapping: the gain is (shown price − average cost) × shares and a percentage exists iff the cost is non-zero |
| UseApi.GainIsValueMinusCost | frontend/src/services/useApi.js:152-154 | on a row the backend listed, the gain shown is the value minus the cost |
| UseApi.SummaryOfHoldings | frontend/src/services/useApi.js:157-167 | total value and invested amount are sums, returns their difference, the day's change a fixed 1 %, and a return percentage iff something was invested |
| UseApi.ListedGainsSumToReturns | frontend/src/services/useApi.js:154-165 | over listed rows the holdings' gains add up to the summary's total returns |
| UseApi.PortfolioHook.Fetched | frontend/src/services/useApi.js:142-180 | positions replace the mock portfolio, each shown by the corrected holding view (gain taken from the price shown, the corrected step of the Findings table); an empty list or a failure keeps it and raises the flag; loading ends |
| UseApi.AlertsHook.Fetched | frontend/src/services/useApi.js:189-201 | the fetched alerts, or none on failure; loading ends |
| UseApi.StocksHook.constructor | frontend/src/services/useApi.js:40-43 | the stocks hook starts on the mock list, loading, with no error and the mock flag down |
| UseApi.MarketHook.constructor | frontend/src/services/useApi.js:76-78 | the market hook starts on the mock summary, loading, with the mock flag down |
| UseApi.PredictionHook.constructor | frontend/src/services/useApi.js:114-116 | the prediction hook starts with no prediction, loading, and no error |
| UseApi.PortfolioHook.constructor | frontend/src/services/useApi.js:138-140 | the portfolio hook starts on the mock summary and holdings, loading, with the mock flag down |
| UseApi.AlertsHook.constructor | frontend/src/services/useApi.js:186-187 | the alerts hook starts with no alerts, loading |
| UseApi.HoldingViews | frontend/src/services/useApi.js:147-156 | one holding view per position, in order |
| UseApi.GainsSumToReturns | frontend/src/services/useApi.js:157-160 | when every holding's gain is its value minus its cost, the gains add up to the total value minus the total invested |
| CandlestickChart.RangeDays | frontend/src/components/charts/CandlestickChart.jsx:17-24 | a range spans 7, 30, 90, 180 or 365 days; 'ALL' spans no limit |
| CandlestickChart.FilteredData | frontend/src/components/charts/CandlestickChart.jsx:132-146 | without a day limit every point is kept; otherwise exactly the points no older than the range, in order |
| CandlestickChart.ZoomedIn | frontend/src/components/charts/CandlestickChart.jsx:191-193 | zooming in multiplies by 1.5 but never beyond 5, and never drops below 1 from 1 or more |
| CandlestickChart.ZoomedOut | frontend/src/components/charts/CandlestickChart.jsx:195-197 | zooming out divides by 1.5 but never below 1, and never exceeds 5 from 5 or less |
| CandlestickChart.ZoomOutUndoesZoomIn | frontend/src/components/charts/CandlestickChart.jsx:191-197 | zooming out undoes a zoom in that did not hit the limit |
| CandlestickChart.VisibleCount | frontend/src/components/charts/CandlestickChart.jsx:152 | the visible count never exceeds the number of points |
| CandlestickChart.Window | frontend/src/components/charts/CandlestickChart.jsx:151-154 | the zoom window lies inside the data and holds exactly the visible count |
| CandlestickChart.WindowAtOne | frontend/src/components/charts/CandlestickChart.jsx:151-154 | at zoom 1 the window is the whole data |
| CandlestickChart.ZoomedData | frontend/src/components/charts/CandlestickChart.jsx:148-157 | the zoomed data is the contiguous slice of the window, holding exactly the visible count |
| CandlestickChart.TruthyValues | frontend/src/components/charts/CandlestickChart.jsx:163-178 | the truthy values are exactly the present, non-zero ones |
| CandlestickChart.Padding | frontend/src/components/charts/CandlestickChart.jsx:170 | the padding of an ordered span is never negative |
| CandlestickChart.PriceDomain | frontend/src/components/charts/CandlestickChart.jsx:160-173 | [0, 100] when there are no truthy highs or lows, otherwise the lowest low to the highest high widened by a tenth of the span on both sides |
| CandlestickChart.PricesInsideDomain | frontend/src/components/charts/CandlestickChart.jsx:160-173 | for candles with positive ordered lows and highs, every low and high is drawn inside the price axis |
| CandlestickChart.VolumeDomain | frontend/src/components/charts/CandlestickChart.jsx:176-181 | the volume axis starts at 0, is [0, 1000] without truthy volumes, and otherwise reaches at least every positive volume |
| CandlestickChart.Stretch | frontend/src/components/charts/CandlestickChart.jsx:180 | a tenth more is strictly more for a positive value |
| CandlestickChart.CandleShapeOf | frontend/src/components/charts/CandlestickChart.jsx:26-70 | nothing is drawn unless open, close, high and low are all truthy; otherwise the candle is green exactly when the close is at least the open, its body at least 1 and the open-close distance, its width at least 4 and its rectangle at least 2 |
| CandlestickChart.DateTickOfIsoDate | frontend/src/components/charts/CandlestickChart.jsx:291-294 | an ISO date is labelled month/day |
| CandlestickChart.DateTickWithoutDash | frontend/src/components/charts/CandlestickChart.jsx:291-294 | a value without a dash is shown as it is |
| CandlestickChart.VolumeTick | frontend/src/components/charts/CandlestickChart.jsx:348-352 | millions exactly from 1000000, thousands exactly from 1000, units below, and the number shown times its unit is the volume |
| CandlestickChart.ChartView.constructor | frontend/src/components/charts/CandlestickChart.jsx:125-129 | the chart starts on the one-month range at zoom 1 with no selection |
| CandlestickChart.ChartView.Shown | frontend/src/components/charts/CandlestickChart.jsx:132-157 | the points on screen never exceed the data, and at zoom 1 they are the range's points |
| CandlestickChart.ChartView.HandleRangeChange | frontend/src/components/charts/CandlestickChart.jsx:183-189 | changing the range selects it, resets the zoom to 1 and tells the callback, when there is one, the key |
| CandlestickChart.ChartView.HandleZoomIn | frontend/src/components/charts/CandlestickChart.jsx:191-193 | the zoom level becomes the zoomed-in one and stays in [1, 5] |
| CandlestickChart.ChartView.HandleZoomOut | frontend/src/components/charts/CandlestickChart.jsx:195-197 | the zoom level becomes the zoomed-out one and stays in [1, 5] |
| CandlestickChart.ChartView.HandleMouseDown | frontend/src/components/charts/CandlestickChart.jsx:200-205 | a press on a labelled point starts a drag there; any other press changes nothing |
| CandlestickChart.ChartView.HandleMouseMove | frontend/src/components/charts/CandlestickChart.jsx:207-211 | while dragging, a labelled point becomes the selection's other end; otherwise nothing changes |
| CandlestickChart.ChartView.HandleMouseUp | frontend/src/components/charts/CandlestickChart.jsx:213-220 | releasing clears the selection and ends the drag, leaving the zoom as it was |
| Decision.PriceScore | backend/app/services/decision.py:14-21 | 0 without predictions, otherwise the mean predicted return divided by 100 |
| Decision.TechnicalScore | backend/app/services/decision.py:23-27 | +0.2 exactly for a BUY action, −0.2 exactly for SELL, 0 for any other or a missing action |
| Decision.AnomalyPenalty | backend/app/services/decision.py:16 | −0.2 exactly when the anomaly severity is HIGH, else 0 |
| Decision.ActionFor | backend/app/services/decision.py:36-40 | BUY iff the combined score exceeds 0.05, SELL iff it is below −0.05, HOLD in between |
| Decision.GetRecommendation | backend/app/services/decision.py:8-53 | the action of the weighted score 0.4·price + 0.3·sentiment + 0.2·technical + 0.1·penalty; confidence min(5·abs, 1) in [0, 1] and above 0.25 for BUY or SELL; two reason lines, three with a HIGH anomaly |
| Decision.BuyMonotoneInPrediction | backend/app/services/decision.py:29-40 | with the other signals fixed, a larger mean predicted return never weakens BUY nor turns SELL into something stronger |
| Decision.NeutralIsHold | backend/app/services/decision.py:29-48 | neutral signals give HOLD (confidence 0 without a HIGH anomaly); the HIGH penalty alone cannot produce SELL |
| Rag.RegulationStore.constructor | backend/app/agent/rag.py:24 | the regulation store starts empty |
| Rag.Bump | backend/app/agent/rag.py:86 | counting a token grows the table by at most one key |
| Rag.BumpTotal | backend/app/agent/rag.py:86 | counting a token adds exactly one to the table's total |
| Rag.BumpDistinct | backend/app/agent/rag.py:86 | counting a token keeps every key of the table distinct |
| Rag.TokensFront | backend/app/agent/rag.py:80 | a text that starts with a token character yields its leading run as its first token |
| Rag.SquareSum | backend/app/agent/rag.py:95-96 | a sum of squared counts is never negative |
| Rag.DotNonNegative | backend/app/agent/rag.py:94 | the numerator over non-negative counts is never negative |
| Rag.DotSwap | backend/app/agent/rag.py:94 | the numerator does not depend on which table comes first |
| Rag.DotConcat | backend/app/agent/rag.py:94 | the numerator over two token lists is the sum of the numerators |
| Rag.CommonSameTokens | backend/app/agent/rag.py:93 | the shared keys taken from either table are the same distinct tokens |
| Rag.Builtin | backend/app/agent/rag.py:47-76 | the fallback list holds exactly three regulations |
| Rag.DocumentFor | backend/app/agent/rag.py:37-45 | a document iff id, title and content are present (otherwise KeyError); those are copied, the other fields default to "" |
| Rag.Converted | backend/app/agent/rag.py:36-45 | the entries are appended in order until the first one missing a required key; with no error every entry is appended |
| Rag.LoadedFacts | backend/app/agent/rag.py:27-76 | a non-empty list is never reloaded; a load without an error leaves a non-empty list; the built-in three when there is no file or it lists nothing |
| Rag.ConvertedAll | backend/app/agent/rag.py:36-45 | a file whose entries all have the required keys loads in full, in file order |
| Rag.ConvertedStops | backend/app/agent/rag.py:36-45 | after the first entry missing a key, later entries change nothing and the KeyError is raised |
| Rag.RegulationStore.Load | backend/app/agent/rag.py:27-76 | the store's list and the raised error are those of the load specification |
| Rag.RegulationStore.SearchCmf | backend/app/agent/rag.py:102-112 | loads the regulations, then propagates the load error or returns their ranking against the query |
| Rag.Tokens | backend/app/agent/rag.py:79-80 | every token is a non-empty run of word characters or apostrophes |
| Rag.TokensOfWord | backend/app/agent/rag.py:80 | a text made only of token characters is a single token |
| Rag.TokensOfSeparators | backend/app/agent/rag.py:80 | a text without token characters has no tokens |
| Rag.TokensSeparate | backend/app/agent/rag.py:80 | texts joined by a non-token character tokenize separately, so no token spans the separator |
| Rag.TermFrequencies | backend/app/agent/rag.py:83-87 | the counting loop builds exactly the frequency table of the tokens |
| Rag.BumpGet | backend/app/agent/rag.py:86 | counting a token adds one to its count and changes no other count |
| Rag.BumpKeys | backend/app/agent/rag.py:86 | a counted token keeps its place among the keys, a new one goes last |
| Rag.TFFacts | backend/app/agent/rag.py:83-87 | one key per distinct token, each token's count is its number of occurrences, and the counts sum to the number of tokens |
| Rag.Cosine | backend/app/agent/rag.py:90-99 | 0 when either table is empty or either norm is 0 |
| Rag.DotReorder | backend/app/agent/rag.py:93-94 | the numerator does not depend on the order in which the shared tokens are visited |
| Rag.CosineSymmetric | backend/app/agent/rag.py:90-99 | the similarity is symmetric |
| Rag.CosineNonNegative | backend/app/agent/rag.py:90-99 | the similarity of two count tables is never negative |
| Rag.ScoredDocs | backend/app/agent/rag.py:105-110 | one (score, document) pair per document, in list order |
| Rag.Search | backend/app/agent/rag.py:104-112 | returns exactly the ranking of the loaded documents: scored, stably sorted by descending score, the first top_k that have a positive score |
| Rag.ScoreDocs | backend/app/agent/rag.py:105-110 | the loop pairs every document with its cosine score against the query, in list order |
| Rag.DocumentsOf | backend/app/agent/rag.py:112 | the comprehension keeps the document of every kept pair, in order |
| Rag.KeptMembers | backend/app/agent/rag.py:111-112 | every kept pair is a document of the list with its own positive score |
| Rag.KeptSorted | backend/app/agent/rag.py:111 | the kept pairs come in non-increasing score order |
| Rag.RankedFacts | backend/app/agent/rag.py:102-112 | at most top_k documents, all from the list, all with a positive score, in non-increasing score order |
| Rag.ScoredPositives | backend/app/agent/rag.py:105-111 | the scored pairs with a positive score are as many as the documents with a positive cosine |
| Rag.RankedCount | backend/app/agent/rag.py:102-112 | the ranking holds exactly min(top_k, number of documents with a positive score) documents |
| Rag.KeptBeatsRest | backend/app/agent/rag.py:111-112 | in a descending list, a pair not kept among the first top_k positives scores no higher than any kept pair |
| Rag.RankedIsBest | backend/app/agent/rag.py:102-112 | no document left out of the ranking scores higher than a document in it |
| Rag.DocLines | backend/app/agent/rag.py:120-126 | the document's title and content, in Arabic iff the language is "ar", followed by a sanction line iff it has a penalty |
| Rag.SectionsLength | backend/app/agent/rag.py:119-126 | one line per document plus one per sanction |
| Rag.Context | backend/app/agent/rag.py:117-127 | empty exactly when no document was found |
| Rag.FormatCmfContext | backend/app/agent/rag.py:115-127 | loads the regulations, then propagates the load error or returns the context of the search's documents |
| Rag.FormatDocs | backend/app/agent/rag.py:117-127 | the text the formatting loop builds is the context of the documents: a header, then each document's lines in order |
| NewsScrapers.ArabicListsNonEmpty | nlp/scrapers/news_scrapers.py:17-34 | every stock of the Arabic keyword table has at least two keywords |
| NewsScrapers.IsoYearFirst | nlp/scrapers/news_scrapers.py:148-151 | the `%Y-%m-%d` format reads an ISO date back as the same date |
| NewsScrapers.FirstPerUrl | nlp/scrapers/news_scrapers.py:436-442 | de-duplication never lengthens the list |
| NewsScrapers.WebManagerPageSearch | nlp/scrapers/news_scrapers.py:94-118 | one pass of the page loop finds exactly that page's results |
| NewsScrapers.BusinessNewsPageSearch | nlp/scrapers/news_scrapers.py:167-203 | one pass of the page loop finds exactly that page's results |
| NewsScrapers.Lookup | nlp/scrapers/news_scrapers.py:425 | `dict.get`: a value stored under the key, or none iff no entry has the key |
| NewsScrapers.KeywordListsNonEmpty | nlp/scrapers/news_scrapers.py:36-54 | every stock of the keyword table has at least two keywords |
| NewsScrapers.SearchKeywords | nlp/scrapers/news_scrapers.py:425-428 | the first two keywords of the stock, or the code itself for an unknown code; always one or two |
| NewsScrapers.UrlDate | nlp/scrapers/news_scrapers.py:107-110 | today's date for a URL without a /YYYY/MM/DD/ part, otherwise a YYYY-MM-DD text |
| NewsScrapers.UrlDateOf | nlp/scrapers/news_scrapers.py:108-110 | the first /YYYY/MM/DD/ of a URL gives the date YYYY-MM-DD |
| NewsScrapers.IlboursaDate | nlp/scrapers/news_scrapers.py:260-269 | today's date when the surrounding text holds no dd/mm/yy |
| NewsScrapers.IlboursaShortYear | nlp/scrapers/news_scrapers.py:264-269 | a two-digit year yy becomes 20yy, reordered to year-month-day |
| NewsScrapers.IlboursaLongYear | nlp/scrapers/news_scrapers.py:264-269 | a four-digit year is kept, reordered to year-month-day |
| NewsScrapers.RadioDate | nlp/scrapers/news_scrapers.py:361-373 | today's date when neither the preceding text nor the URL carries a date |
| NewsScrapers.RadioMonthDate | nlp/scrapers/news_scrapers.py:362-364 | a /YYYY/MM/ URL with no date before the link gives the first of that month |
| NewsScrapers.MonthOf | nlp/scrapers/news_scrapers.py:148 | a recognised month name gives its number in 1..12 |
| NewsScrapers.DateIn | nlp/scrapers/news_scrapers.py:148-153 | a date accepted by the first matching format is a valid calendar date |
| NewsScrapers.IsoDate | nlp/scrapers/news_scrapers.py:151 | the output form YYYY-MM-DD has ten characters with dashes at 4 and 7 |
| NewsScrapers.IsoDateParses | nlp/scrapers/news_scrapers.py:146-156 | an ISO date parses back to itself, so date parsing is idempotent on its own output |
| NewsScrapers.DayFirstToIso | nlp/scrapers/news_scrapers.py:148-151 | a dd/mm/YYYY date becomes its ISO form |
| NewsScrapers.Absolute | nlp/scrapers/news_scrapers.py:189-190 | an href starting with "http" is kept, otherwise the site's base URL is put before it |
| NewsScrapers.AppendNewFacts | nlp/scrapers/news_scrapers.py:290 | the appended articles have URLs that are new and pairwise distinct, each made from an item |
| NewsScrapers.AcceptLinks | nlp/scrapers/news_scrapers.py:102-118 | the inner loop returns exactly the accepted items' articles, in order |
| NewsScrapers.AppendNewLinks | nlp/scrapers/news_scrapers.py:284-297 | the inner loop appends exactly the accepted articles whose URL is new |
| NewsScrapers.WebManagerPage | nlp/scrapers/news_scrapers.py:94-118 | at most 15 articles from a page, none when it cannot be fetched |
| NewsScrapers.WebManagerResults | nlp/scrapers/news_scrapers.py:90-120 | each result has an href, a title longer than 10 characters and its URL's date, and there are at most 15 per page |
| NewsScrapers.WebManagerPageOk | nlp/scrapers/news_scrapers.py:94-118 | every article of one result page has an href, a title longer than 10 characters, its URL's date and the webmanagercenter source |
| NewsScrapers.WebManagerSearch | nlp/scrapers/news_scrapers.py:90-120 | the page loop returns exactly the results of pages 1 to max_pages |
| NewsScrapers.PagePath | nlp/scrapers/news_scrapers.py:167-170 | no path for page 1, "/page/n" for later pages |
| NewsScrapers.BusinessNewsPage | nlp/scrapers/news_scrapers.py:172-203 | at most 15 articles from a page, none when it cannot be fetched |
| NewsScrapers.BusinessNewsResults | nlp/scrapers/news_scrapers.py:176-203 | each result has a title longer than 10 characters, an absolute URL and its URL's date |
| NewsScrapers.BusinessNewsSearch | nlp/scrapers/news_scrapers.py:163-205 | the page loop returns exactly the results of pages 1 to max_pages |
| NewsScrapers.IlboursaFacts | nlp/scrapers/news_scrapers.py:235-299 | at most 20 news links and 10 search results; news links avoid the rejected pages and have titles longer than 15 characters; a keyword with a space skips the news page; search results never repeat a URL |
| NewsScrapers.IlboursaSearch | nlp/scrapers/news_scrapers.py:235-299 | the two loops return exactly the ilboursa results |
| NewsScrapers.ArabicKeywords | nlp/scrapers/news_scrapers.py:333-335 | the first two Arabic keywords of the code, or the keyword itself; always one or two |
| NewsScrapers.RadioFacts | nlp/scrapers/news_scrapers.py:331-386 | radioexpressfm never returns a URL twice, and every result is an accepted Arabic-section link |
| NewsScrapers.RadioKeyword | nlp/scrapers/news_scrapers.py:336-384 | the page loop for one keyword returns exactly its pages' results, stopping at a page that cannot be fetched or has no links |
| NewsScrapers.RadioSearch | nlp/scrapers/news_scrapers.py:331-333 | returns exactly the radioexpressfm results for the first two Arabic keywords of the code, or for the keyword itself when it has none |
| NewsScrapers.RadioKeywordsSearch | nlp/scrapers/news_scrapers.py:335-386 | the keyword loop appends each keyword's pages to the shared list, so the result is the fold of the per-keyword page walk over the keywords in order |
| NewsScrapers.FirstPerUrlUrls | nlp/scrapers/news_scrapers.py:436-442 | de-duplication keeps one article per URL and loses no URL |
| NewsScrapers.FirstPerUrlOrder | nlp/scrapers/news_scrapers.py:438-442 | de-duplication keeps the order in which articles were found |
| NewsScrapers.FirstPerUrlFirst | nlp/scrapers/news_scrapers.py:439-442 | each kept article is the first one found with its URL |
| NewsScrapers.Tagged | nlp/scrapers/news_scrapers.py:441 | every article tagged with the stock code, nothing else changed |
| NewsScrapers.NewsForStockFacts | nlp/scrapers/news_scrapers.py:424-444 | at most 90 articles, each tagged with the code, no URL twice; below the cap every URL found is present |
| NewsScrapers.TaggedFacts | nlp/scrapers/news_scrapers.py:436-444 | for any collection, de-duplicating by URL, tagging and capping at 90 gives at most 90 tagged articles with distinct URLs, and every URL when under the cap |
| NewsScrapers.SearchAll | nlp/scrapers/news_scrapers.py:429-434 | the scraper loop returns each scraper's two-page results, in scraper order |
| NewsScrapers.UniqueTagged | nlp/scrapers/news_scrapers.py:436-442 | the seen-set loop returns the first article of each URL, tagged |
| NewsScrapers.CollectAll | nlp/scrapers/news_scrapers.py:428-434 | the keyword loop returns every scraper's results for each keyword, in keyword order |
| NewsScrapers.GetNewsForStock | nlp/scrapers/news_scrapers.py:424-444 | the method returns exactly the aggregated, de-duplicated, tagged and capped news |
| NewsScrapers.BodyText | nlp/scrapers/news_scrapers.py:134-140 | the body text is cut at 5000 characters |
| NewsScrapers.ParseArticle | nlp/scrapers/news_scrapers.py:122-228 | a parsed page keeps the URL and source, has at most 5000 characters of content, and is in Arabic exactly for radioexpressfm |
| NewsScrapers.IlboursaParseArticle | nlp/scrapers/news_scrapers.py:301-321 | only a title is required; the result keeps the URL, is from ilboursa and has at most 5000 characters of content |
| NewsScrapers.GetFullArticle | nlp/scrapers/news_scrapers.py:446-453 | None for a source with no scraper; otherwise that scraper's parse, keeping URL and source |
| Scheduler.DescribeOne | nlp/scrapers/scheduler.py:55-63 | the description is the fetched page content when there is some, and empty otherwise |
| Scheduler.ScoreOne | nlp/scrapers/scheduler.py:66-76 | one pass of the scoring loop records the article scored by the corrected step of the Findings table (the analyzer's own label), not the as-written neutral fallback |
| Scheduler.Process | nlp/scrapers/scheduler.py:55-76 | the two loops describe and score every unique article, in order, scoring with the corrected step of the Findings table |
| Scheduler.Processed | nlp/scrapers/scheduler.py:55-76 | one processed article per unique article |
| Scheduler.UniqueProcessedUrls | nlp/scrapers/scheduler.py:47-76 | after processing, every URL found appears exactly once |
| Scheduler.StockCodes | nlp/scrapers/scheduler.py:40 | the codes of the keyword table, in table order |
| Scheduler.AllNewsLength | nlp/scrapers/scheduler.py:40-45 | each stock contributes at most 90 articles |
| Scheduler.Description | nlp/scrapers/scheduler.py:55-63 | the fetched page's body when it parses with non-empty content, otherwise ""; at most 5000 characters; "" for sources without a scraper |
| Scheduler.ScoredAsWritten | nlp/scrapers/scheduler.py:66-76 | as written: the analysis has no "sentiment" key, so every article is stored neutral with score and confidence 0 |
| Scheduler.Scored | nlp/scrapers/scheduler.py:66-72 | the corrected step: the analyzer's own label, score and confidence, the label being positive, negative or neutral |
| Scheduler.ScoredLabelAgrees | nlp/scrapers/scheduler.py:69-72 | the corrected label is positive iff the score exceeds 0.2 and negative iff it is below −0.2; without a pipeline the score lies in [−1, 1] |
| Scheduler.KeyErrorHidesVerdict | nlp/scrapers/scheduler.py:69-76 | with the scheduler's analyser, which loads no model, an article whose first 512 characters have a positive lexicon word and no negative one is reported positive with score 1 by the corrected step and neutral with score 0 as written |
| Scheduler.ProcessedFacts | nlp/scrapers/scheduler.py:55-76 | processing keeps the articles in order; each description is the fetched body or empty, and each label agrees with its score |
| Scheduler.RunResultUrls | nlp/scrapers/scheduler.py:36-91 | a run keeps every URL found for any stock exactly once, in the order found, with at most 90 articles per stock |
| Scheduler.CollectStocks | nlp/scrapers/scheduler.py:39-45 | the stock loop appends each stock's news in turn |
| Scheduler.UniqueByUrl | nlp/scrapers/scheduler.py:47-52 | the seen-set loop keeps the first article of each URL |
| Scheduler.Describe | nlp/scrapers/scheduler.py:55-63 | one description per article, each that article's description |
| Scheduler.ScoreAll | nlp/scrapers/scheduler.py:66-76 | one scored article per article, each scored with its description by the corrected step of the Findings table |
| Scheduler.Run | nlp/scrapers/scheduler.py:36-76 | the three loops return exactly the run's result, scored by the corrected step of the Findings table |
| Scheduler.NewsScheduler.constructor | nlp/scrapers/scheduler.py:22-34 | the given interval, not running, no last run and no last articles |
| Scheduler.NewsScheduler.ScrapeAndAnalyze | nlp/scrapers/scheduler.py:36-91 | returns the run's result (scored by the corrected step of the Findings table), which becomes the last articles, and records the time of the run |
| Scheduler.NewsScheduler.RunOnce | nlp/scrapers/scheduler.py:121-122 | the same as one scrape-and-analyze, scored by the corrected step of the Findings table |
| Scheduler.NewsScheduler.Start | nlp/scrapers/scheduler.py:105-113 | the scheduler is running afterwards; an already running one is left as it is |
| Scheduler.NewsScheduler.Stop | nlp/scrapers/scheduler.py:115-119 | the scheduler is not running afterwards |
| MarketData.ApplyRow | backend/app/services/market_data.py:89-114 | a table row never changes the quote's code, error flag or price |
| MarketData.RowsApplied | backend/app/services/market_data.py:88-114 | the rows never change the quote's code, error flag or price |
| MarketData.RowsRaise | backend/app/services/market_data.py:107-110 | the rows raise exactly when one of them is a volume row whose value has no digits |
| MarketData.FloatOf | backend/app/services/market_data.py:50-58 | no match gives nothing, never an error |
| MarketData.IndexChangeNeverInvalid | backend/app/services/market_data.py:56-58 | a signed percentage match always reads as a float |
| MarketData.GetTunindex | backend/app/services/market_data.py:36-68 | all None without a page; otherwise a non-zero value and a percentage, the change in points being value × pct / 100; without a timestamp it is the fixed 9850 fallback |
| MarketData.TunindexFacts | backend/app/services/market_data.py:48-68 | the fallback is taken iff the value text does not read as a float; the parsed value is kept unless missing or zero (then 9850); a change is reported iff the percentage is non-zero; the percentage defaults to 0 |
| MarketData.MarketStatus | backend/app/services/market_data.py:139 | "open" iff the hour lies in [9, 14), otherwise "closed" |
| MarketData.MarketOverview | backend/app/services/market_data.py:134-141 | the index dictionary, the market status of the hour and the clock's timestamp |
| MarketData.FallbackQuote | backend/app/services/market_data.py:121-132 | the code with every figure None and the "Data unavailable" error |
| MarketData.FieldOf | backend/app/services/market_data.py:95-111 | a label fills the first field of open, high, low, volume, change whose words it contains, and no field otherwise |
| MarketData.OpenComesFirst | backend/app/services/market_data.py:95 | a label mentioning the opening price is read as the open even when it mentions another field |
| MarketData.PriceCellNeverInvalid | backend/app/services/market_data.py:96-98 | a price-like cell never raises |
| MarketData.Store | backend/app/services/market_data.py:96-114 | a missing match leaves the dictionary unchanged, a value is stored, and a cell that does not parse raises |
| MarketData.QuoteOf | backend/app/services/market_data.py:70-119 | the quote keeps the code, and without a page it is the fallback quote |
| MarketData.GetStockQuote | backend/app/services/market_data.py:70-119 | the row loop returns exactly the quote specification's dictionary |
| MarketData.NoneStays | backend/app/services/market_data.py:89-119 | once a row has raised, later rows do not matter |
| MarketData.ApplyRowRaisesOnVolume | backend/app/services/market_data.py:95-114 | a row raises iff it is a volume row whose digit run is not an integer |
| MarketData.QuoteFallsBackOnVolume | backend/app/services/market_data.py:107-119 | a fetched page falls back to "Data unavailable" iff some volume row does not read as an integer |
| MarketData.QuoteRowFacts | backend/app/services/market_data.py:89-114 | short rows and unknown labels change nothing; an open or volume row stores its parsed value |
| MarketData.MoverRows | backend/app/services/market_data.py:156 | a table contributes rows[1:limit+1]: at most limit rows, skipping the header |
| MarketData.MoverOf | backend/app/services/market_data.py:160-173 | the code is the first cell's link text, or its text without a link |
| MarketData.TopMoversOf | backend/app/services/market_data.py:143-186 | at most limit gainers and limit losers; none without a page |
| MarketData.GetTopMovers | backend/app/services/market_data.py:143-186 | the loop over tables and rows returns exactly the movers specification |
| MarketData.CollectTable | backend/app/services/market_data.py:153-178 | one table's rows with at least three cells are appended, in order, to the gainers under a "hausse"/"gainer" header, otherwise to the losers under a "baisse"/"loser" header, otherwise nowhere |
| MarketData.CollectedSources | backend/app/services/market_data.py:175-178 | gainers come only from tables headed "hausse"/"gainer", losers only from "baisse"/"loser" tables that are not gainer tables |
| MarketData.NeutralTableSkipped | backend/app/services/market_data.py:175-178 | a table whose header names neither list contributes nothing |
| DataLoader.ParseSeance | backend/app/db/data_loader.py:60 | a SEANCE cell becomes a date or NaN |
| DataLoader.SetSeance | backend/app/db/data_loader.py:60 | only the SEANCE cell of a row is replaced, by its parsed date |
| DataLoader.CoerceRow | backend/app/db/data_loader.py:72-79 | after i passes, exactly the first i numeric columns of a row are converted and every other cell is unchanged |
| DataLoader.CoerceColumn | backend/app/db/data_loader.py:73-79 | one pass converts that column in every row and nothing else |
| DataLoader.UnionColumns | backend/app/db/data_loader.py:95 | the concatenated frame has every column of every file |
| DataLoader.ConcatRows | backend/app/db/data_loader.py:95 | concatenation keeps every row of every file, each laid over the union of the columns |
| DataLoader.DatedRow | backend/app/db/data_loader.py:58-61 | a row that survives the date step has a group that reads "11" (a text "11" once stripped, or the integer 11), a date and a code |
| DataLoader.CoercedRow | backend/app/db/data_loader.py:72-81 | converting a dated row of group "11" (text or integer) that keeps its close gives a well-formed row |
| DataLoader.KeptRows | backend/app/db/data_loader.py:54-82 | every row _normalize keeps is well formed |
| DataLoader.KeptContains | backend/app/db/data_loader.py:54-82 | a selected row whose group reads "11" (a text "11" once stripped, or the integer 11), with a valid date, a code and a numeric close, is kept, converted |
| DataLoader.LoadedNormal | backend/app/db/data_loader.py:85-96 | every row load_all_files returns is well formed |
| DataLoader.FirstWithCode | backend/app/db/data_loader.py:100-101 | the first stored stock with the code, or none when no stock has it |
| DataLoader.MaxId | backend/app/db/data_loader.py:109 | the largest stored id bounds every id |
| DataLoader.RecordsOf | backend/app/db/data_loader.py:130-148 | one price record per row of the group, in order, each converted by the corrected step of the Findings table (a missing count is 0 instead of raising) |
| DataLoader.LoadStep | backend/app/db/data_loader.py:122-151 | one group adds one to the stock count and its number of rows to the price count and to the price table |
| DataLoader.Database.constructor | backend/app/db/data_loader.py:113 | the session starts with the given stock and price tables |
| DataLoader.Database.LoadGroup | backend/app/db/data_loader.py:122-151 | one pass of the group loop reaches the state its specification gives |
| DataLoader.Database.LoadGroupsInto | backend/app/db/data_loader.py:121-151 | the group loop reaches the state the specification gives after every group |
| DataLoader.ParseDate | backend/app/db/data_loader.py:60 | a parsed session date is a valid calendar date |
| DataLoader.ParseFormatDate | backend/app/db/data_loader.py:60 | parsing the dd/mm/YYYY form of a date gives the date back |
| DataLoader.CoerceCell | backend/app/db/data_loader.py:72-79 | a numeric column cell becomes a number or NaN; a number stays as it is |
| DataLoader.FrenchAmount | backend/app/db/data_loader.py:76-79 | a French amount "1 234,5" reads as 1234.5 |
| DataLoader.CoercedUpTo | backend/app/db/data_loader.py:72-79 | after i passes of the column loop every row has its first i numeric columns converted and nothing else changed |
| DataLoader.NormalizeNames | backend/app/db/data_loader.py:49 | every column name stripped and upper-cased, in order |
| DataLoader.MissingColumns | backend/app/db/data_loader.py:50 | exactly the expected columns the frame lacks |
| DataLoader.ColumnIndex | backend/app/db/data_loader.py:54 | the first position of the column, none iff it is absent |
| DataLoader.SelectRow | backend/app/db/data_loader.py:54-61 | the expected columns in order, each from the first column of that name, except that the CODE cell is NaN as soon as any CODE column of the row is NaN (dropna looks at all of them) |
| DataLoader.SelectRowUnique | backend/app/db/data_loader.py:54 | with a single CODE column, every expected column, CODE included, comes from the first column of its name |
| DataLoader.DuplicatedMeans | backend/app/db/data_loader.py:49-54 | a cleaned column name counts as doubled exactly when it sits at two positions |
| DataLoader.Normalize | backend/app/db/data_loader.py:47-82 | the stage-by-stage reassignment of the frame returns exactly the normalisation specification, raising at the stage where the source raises |
| DataLoader.NormalizeError | backend/app/db/data_loader.py:49-79 | when no error is raised, every expected column is present |
| DataLoader.NormalizeFails | backend/app/db/data_loader.py:49-79 | normalising fails iff, after cleaning the names, an expected column is missing, SEANCE sits at two positions (`to_datetime` refuses duplicate keys) or a numeric column occurs twice (`.str` of a frame); a missing column is reported first with the list of missing ones, then a doubled SEANCE |
| DataLoader.NormalizedRows | backend/app/db/data_loader.py:58-81 | every kept row has a session date, a code, a group that reads "11" (text or integer), a closing price and numeric columns that are numbers or NaN |
| DataLoader.NormalizeKeeps | backend/app/db/data_loader.py:58-81 | a file row whose group reads "11" (a text "11" once stripped, or the integer 11) and whose date, code and close are well formed is kept, converted |
| DataLoader.IntText11 | backend/app/db/data_loader.py:58 | an integer's `str` is "11" exactly for 11 |
| DataLoader.IntGroupeIs11 | backend/app/db/data_loader.py:54-58 | a row whose GROUPE cell is an integer passes the group filter exactly when that integer is 11 |
| DataLoader.KeyText | backend/app/db/data_loader.py:121-124 | a code or name key is its text stripped, an integer's decimal text, or "nan" for a missing value |
| DataLoader.AddNew | backend/app/db/data_loader.py:95 | the columns followed by the new names, keeping every name of both |
| DataLoader.AlignRow | backend/app/db/data_loader.py:95 | each target column takes the frame's first value of that name, turned into a float when the concatenation promotes the column, or NaN when the frame lacks it |
| DataLoader.Widen | backend/app/db/data_loader.py:95 | in a promoted column every number becomes a float or NaN; any other cell, and every cell of another column, is unchanged |
| DataLoader.PromotedColumns | backend/app/db/data_loader.py:95 | exactly the target columns that every file holds as numbers and into which some file brings a float or a missing value |
| DataLoader.PromotedColumnHoldsFloats | backend/app/db/data_loader.py:95 | a promoted column holds a float or NaN, never an integer, in every concatenated row |
| DataLoader.PromotedGroupeKeepsNothing | backend/app/db/data_loader.py:55-96 | when the concatenation turns GROUPE into floats (a blank GROUPE cell, or a file without the column), the group texts are "11.0" or "nan" and loading keeps no row |
| DataLoader.FloatGroupeKeepsNothing | backend/app/db/data_loader.py:55-58 | rows whose first GROUPE cell is a float or NaN keep nothing |
| DataLoader.Concat | backend/app/db/data_loader.py:95 | a rectangular frame over the union of the columns, with the rows of every frame |
| DataLoader.LoadAllFiles | backend/app/db/data_loader.py:85-96 | no file gives no rows; otherwise the normalised concatenation, keeping group "11" given as text or as an integer |
| DataLoader.NextId | backend/app/db/data_loader.py:107-109 | the new id is positive and above every stored id |
| DataLoader.StockForFacts | backend/app/db/data_loader.py:99-110 | a stored stock keeps its id and group and takes the new name; a new one gets a fresh id and group 11; every other stock is unchanged |
| DataLoader.RecordAsWritten | backend/app/db/data_loader.py:136-148 | as written, the conversion raises exactly when the quantity or the transaction count is NaN, and otherwise keeps the stock id and the close |
| DataLoader.NaNQuantityRaises | backend/app/db/data_loader.py:144 | a quantity cell "-" survives normalisation as NaN and then makes the as-written conversion raise |
| DataLoader.IntOrZero | backend/app/db/data_loader.py:144-145 | the corrected conversion: a missing count is 0, a non-negative number is truncated |
| DataLoader.RecordOf | backend/app/db/data_loader.py:136-148 | the record carries the stock, date and prices of the row, and agrees with the as-written record whenever that one exists |
| DataLoader.KeysOf | backend/app/db/data_loader.py:121 | the (CODE, VALEUR) keys are distinct and cover every row |
| DataLoader.GroupOf | backend/app/db/data_loader.py:122 | a group holds exactly the rows of its key |
| DataLoader.LoadGroupsCounts | backend/app/db/data_loader.py:122-151 | one stock counted per key and the group sizes added to the price count |
| DataLoader.GroupsCoverRows | backend/app/db/data_loader.py:121-122 | the groups of all the keys hold every row exactly once |
| DataLoader.GrouperError | backend/app/db/data_loader.py:121 | grouping fails exactly when CODE or VALEUR names two columns after cleaning |
| DataLoader.LoadDataCounts | backend/app/db/data_loader.py:113-154 | no kept row gives zero counts and no change; a doubled CODE or VALEUR column gives the grouping error and no change; otherwise one stock is counted per group and one price per kept row, and exactly that many price rows are added |
| DataLoader.Database.GetOrCreateStock | backend/app/db/data_loader.py:99-110 | the stocks table and the returned stock are those of the specification; prices are untouched |
| DataLoader.Database.AddGroup | backend/app/db/data_loader.py:130-151 | appends exactly the group's records, converted by the corrected step of the Findings table, and reports their number |
| DataLoader.Database.LoadData | backend/app/db/data_loader.py:113-154 | the counts, or the loading or grouping error, and both tables afterwards are those of the load specification, whose records are converted by the corrected step of the Findings table |
| NewsRoutes.NewsTable.constructor | backend/app/api/routes/news.py:205-261 | the news table starts with the rows already stored |
| NewsRoutes.Urls | backend/app/api/routes/news.py:223-228 | the stored URLs are exactly the URLs of the stored rows |
| NewsRoutes.Bounded | backend/app/api/routes/news.py:47-51 | a query parameter is accepted unchanged iff it lies within its bounds, otherwise 422 |
| NewsRoutes.Scores | backend/app/api/routes/news.py:110 | the scores of the rows that have one, in row order, and only those |
| NewsRoutes.StockSentimentSummary | backend/app/api/routes/news.py:85-127 | no rows give average 0, neutral, confidence 0; otherwise the mean score, its positive/negative/neutral label at ±0.2 and confidence min(count/5, 1) in [0, 1] |
| NewsRoutes.MarketSentiment | backend/app/api/routes/news.py:130-170 | no rows give zeros and neutral; otherwise the mean score, its bullish/bearish/neutral mood at ±0.1 and the number of distinct non-empty stock codes |
| NewsRoutes.CodesCoveredBound | backend/app/api/routes/news.py:155 | no more stocks are covered than there are articles |
| NewsRoutes.SummaryBounds | backend/app/api/routes/news.py:110-111 | both summaries report an average between the lowest and the highest stored score |
| NewsRoutes.FallbackAnalyze | backend/app/api/routes/news.py:184-202 | neutral with confidence 0.3 iff no lexicon word occurs in the lower-cased text; otherwise the score is the lexicon score (pos − neg)/total of the word counts, in [−1, 1], labelled at ±0.2 |
| NewsRoutes.FallbackConfidence | backend/app/api/routes/news.py:188-201 | at most six words of each polarity are found, so the confidence lies in [0.2, 1] |
| NewsRoutes.AnalyzeText | backend/app/api/routes/news.py:173-202 | texts shorter than 10 characters get 422; otherwise the analyzer's result, or the lexicon fallback when the analyzer cannot be imported |
| NewsRoutes.RowFor | backend/app/api/routes/news.py:230-252 | the new row copies the article; its date is the article's date when that is non-empty and none otherwise; it carries the analyzer's verdict on "title content", or no sentiment without an analyzer |
| NewsRoutes.NewsTable.CreateBatch | backend/app/api/routes/news.py:205-261 | fails, leaving the table as it was, exactly when a row it would add has a date `fromisoformat` refuses; otherwise the table grows by exactly the returned rows, one per article whose URL was not yet stored |
| NewsRoutes.NewRowsPrefix | backend/app/api/routes/news.py:222-254 | the rows added for the first k articles are the first rows added for the whole batch |
| NewsRoutes.NewRowsDistinct | backend/app/api/routes/news.py:222-228 | a batch never stores a URL twice, neither against the stored rows nor within itself |
| NewsRoutes.NewRowsComplete | backend/app/api/routes/news.py:222-254 | after the batch every article's URL is stored |
| NewsRoutes.NewRowsFromArticles | backend/app/api/routes/news.py:241-254 | every new row is the row of one of the articles |
| I18n.TableFor | frontend/src/i18n/index.js:10 | the Arabic table for "ar", the French table for every other locale |
| I18n.Step | frontend/src/i18n/index.js:13-14 | a segment resolves iff the current node is a group containing it |
| I18n.WalkConcat | frontend/src/i18n/index.js:12-27 | walking a concatenated path is walking the first part, then the second from where it ended |
| I18n.GetTranslation | frontend/src/i18n/index.js:8-30 | the nested loops return exactly the translation specification: the locale's node, else the French node, else the key |
| I18n.UnknownLocaleIsFrench | frontend/src/i18n/index.js:10 | every locale other than "ar" translates exactly as French does |
| I18n.DottedPath | frontend/src/i18n/index.js:9-29 | a dotted key names the node at that path in the locale's table; missing there, the French node; missing in both, the key itself |
| LanguageContext.InitialLocale | frontend/src/context/LanguageContext.jsx:7-12 | the saved locale when a window exists and a non-empty one is saved, otherwise French |
| LanguageContext.Toggled | frontend/src/context/LanguageContext.jsx:26-28 | French becomes Arabic and every other locale becomes French |
| LanguageContext.ToggleTwice | frontend/src/context/LanguageContext.jsx:26-28 | toggling twice gives back French or Arabic, and turns any other locale into Arabic |
| LanguageContext.Direction | frontend/src/context/LanguageContext.jsx:18 | right-to-left exactly for Arabic |
| LanguageContext.LanguageProvider.constructor | frontend/src/context/LanguageContext.jsx:7-12 | the provider starts at the initial locale with the stored value unchanged |
| LanguageContext.LanguageProvider.T | frontend/src/context/LanguageContext.jsx:22-24 | any locale other than Arabic translates as French |
| LanguageContext.LanguageProvider.SyncDocument | frontend/src/context/LanguageContext.jsx:16-20 | the locale is saved, and the document's language and direction follow it, right-to-left iff isRTL |
| LanguageContext.LanguageProvider.SetLocale | frontend/src/context/LanguageContext.jsx:7 | the locale becomes the one given |
| LanguageContext.LanguageProvider.ToggleLanguage | frontend/src/context/LanguageContext.jsx:26-28 | the locale is toggled, and the page becomes right-to-left iff it was French |
| LanguageContext.UseLanguage | frontend/src/context/LanguageContext.jsx:46-52 | the provider's value, or the "must be used within a LanguageProvider" error iff there is no provider |
| Numbers.DecimalComma | backend/app/db/data_loader.py:76-79 | with the comma turned into a point, "a,b" reads as a + b / 10^|b| |
| Numbers.UnsignedMatchParses | backend/app/services/market_data.py:96-98 | an unsigned number match, comma turned into a point, always reads as a float |
| Numbers.SignedMatchParses | backend/app/services/market_data.py:56-58 | a signed number match, comma turned into a point, always reads as a float |
| InvestigationsPage.Filtered | frontend/src/pages/inspector/Investigations.jsx:29-33 | an investigation is shown exactly when its title contains the query, ignoring case, and the status filter is 'all' or its status |
| InvestigationsPage.SearchSeesTitleAndStatusOnly | frontend/src/pages/inspector/Investigations.jsx:29-33 | the search ignores stocks and assignees: two investigations with the same title and status are shown or hidden together |
| InvestigationsPage.TabCount | frontend/src/pages/inspector/Investigations.jsx:35-40 | the 'all' tab counts every investigation, a status tab those with that status, and no tab exceeds the list |
| InvestigationsPage.TabCountIsRows | frontend/src/pages/inspector/Investigations.jsx:29-40 | a tab's count is the number of rows that tab shows with an empty search |
| InvestigationsPage.TabsAddUp | frontend/src/pages/inspector/Investigations.jsx:36-39 | when every investigation is active, pending or completed, the three status tabs add up to the 'all' tab |
| InvestigationsPage.ProgressColorOf | frontend/src/pages/inspector/Investigations.jsx:139-142 | green exactly at 100; the gradient for every other value of at least 50, values above 100 included; the warning colour exactly below 50 |
| ReportsPage.FilteredReports | frontend/src/pages/inspector/Reports.jsx:23-25 | the 'all' filter shows every report; any other shows exactly the reports of that type |
| ReportsPage.FilteredInOrder | frontend/src/pages/inspector/Reports.jsx:23-25 | the filtered list keeps the reports' order |
| ReportsPage.StatsOf | frontend/src/pages/inspector/Reports.jsx:47-64 | the cards count all reports, the ready ones, the ones being generated and those dated February 2025, over the unfiltered list; ready plus generating never exceeds the total |
| ReportsPage.ThisMonthIsFixed | frontend/src/pages/inspector/Reports.jsx:64 | "this month" is the fixed prefix 2025-02, not the current month: a report dated at least to the month counts exactly when its date starts with 2025-02, and adding reports of any other month never changes the count |
| ReportsPage.TypeIcon | frontend/src/pages/inspector/Reports.jsx:13-18 | compliance reports exactly get the CheckCircle icon, anomaly reports exactly the Clock icon, and an unknown type the FileText icon |
| ReportsPage.DownloadOffered | frontend/src/pages/inspector/Reports.jsx:117-127 | the Download button is offered exactly for ready reports |
| ReportsPage.DownloadsBoundedByReady | frontend/src/pages/inspector/Reports.jsx:52-127 | under any filter, the Download buttons never outnumber the ready card |
| InvestorProfile.AnalyzeTrades | backend/app/services/investor_profile.py:43-68 | the loop over the trades computes exactly the trade analysis: frequency, average hold and average loss tolerance |
| InvestorProfile.FewTrades | backend/app/services/investor_profile.py:44-49 | no trades give frequency 0, hold 0 and loss tolerance 10; exactly one trade gives 1, 14 and 10 |
| InvestorProfile.FrequencyBounds | backend/app/services/investor_profile.py:51-54 | the day divisor is never below 1, so the weekly frequency is positive and at most 7 × the number of trades |
| InvestorProfile.HoldDurationsTruthy | backend/app/services/investor_profile.py:59-61 | only truthy hold durations are kept, and none is kept iff every trade's hold duration is falsy |
| InvestorProfile.LossTolerancesPositive | backend/app/services/investor_profile.py:62-63 | only strictly losing trades contribute, each as a positive |pnl_pct|; none iff no trade lost |
| InvestorProfile.AveragesDefaults | backend/app/services/investor_profile.py:65-66 | hold falls back to 14 iff no truthy hold duration; loss tolerance falls back to 10 iff no trade lost, otherwise it is the positive mean of the losses |
| InvestorProfile.AnalyzeAlerts | backend/app/services/investor_profile.py:70-90 | the no-alert shape exactly for an empty list; otherwise both ratios in [0, 1] and the tiered sensitivity |
| InvestorProfile.SensitivityTiers | backend/app/services/investor_profile.py:71-84 | 0.5 with no alerts, 0.8 above ten, 0.6 for six to ten, 0.3 for exactly one, 0.5 otherwise |
| InvestorProfile.PositionSizes | backend/app/services/investor_profile.py:96 | one position size per simulator trade, in order |
| InvestorProfile.AnalyzeSimulations | backend/app/services/investor_profile.py:92-110 | defaults (0.5, 0.1) without simulations; risk taking capped at 1; the average position size is the mean size over 100 |
| InvestorProfile.VolatileRatio | backend/app/services/investor_profile.py:99-100 | the share of volatile picks lies in [0, 1] |
| InvestorProfile.RiskTakingForms | backend/app/services/investor_profile.py:102-110 | risk taking is 0.8 for large volatile positions, 0.2 for small calm ones, otherwise 0.3 + avg/100 + 0.3·ratio, always capped at 1 |
| InvestorProfile.ChooseProfile | backend/app/services/investor_profile.py:138-146 | aggressive iff its score beats the conservative one by more than 0.2, conservative symmetrically, moderate otherwise with confidence in [0.6, 0.8]; confidence never above 1 |
| InvestorProfile.CalculateProfile | backend/app/services/investor_profile.py:112-155 | the criterion-by-criterion accumulation gives the profile chosen from the criteria sums plus 0.2 × simulation risk taking |
| InvestorProfile.CriteriaExclusive | backend/app/services/investor_profile.py:116-134 | each criterion adds to at most one score, so the two criteria sums are each in [0, 0.8] and together at most 0.8 |
| InvestorProfile.Recommendations | backend/app/services/investor_profile.py:190-211 | four lines per profile; an unknown profile name gets the moderate list |
| InvestorProfile.GetProfile | backend/app/services/investor_profile.py:157-188 | the metrics come from the three analyses (volatility preference = 3 × average position size) and the result carries the chosen profile and its recommendations |
| InvestorProfile.AlertsDoNotAffectProfile | backend/app/services/investor_profile.py:136-176 | two alert histories never change the chosen profile or its confidence, only the reported sensitivity |
| InvestorProfile.EmptyHistoryIsModerate | backend/app/services/investor_profile.py:163-176 | in exact arithmetic an investor with no history is profiled from the defaults: aggressive 0.3, conservative 0.4, moderate, confidence 0.7 (see the GetProfile line under Left out for the float result) |
| MarketPage.Ranked | frontend/src/pages/investor/Market.jsx:20 | the ranking is a permutation of the stocks, sorted by change percentage from largest to smallest |
| MarketPage.TopGainers | frontend/src/pages/investor/Market.jsx:22 | at most five gainers (fewer only when there are fewer stocks), largest change first |
| MarketPage.TopLosers | frontend/src/pages/investor/Market.jsx:23 | at most five losers (fewer only when there are fewer stocks), the i-th being the i-th stock from the end of the ranking, so smallest change first |
| MarketPage.GainersLeadTheRest | frontend/src/pages/investor/Market.jsx:19-24 | every gainer is one of the stocks, and every stock outside the gainers moved no more than any gainer |
| MarketPage.LosersTrailTheRest | frontend/src/pages/investor/Market.jsx:19-24 | every loser is one of the stocks, and every stock outside the losers moved no less than any loser |
| MarketPage.FilteredStocks | frontend/src/pages/investor/Market.jsx:27-32 | a stock is in the table exactly when its symbol or name contains the query, case-insensitively, and the sector filter is 'all' or its own sector |
| MarketPage.EverythingShown | frontend/src/pages/investor/Market.jsx:27-32 | with an empty query and the 'all' sector the table is the whole list, in order |
| MarketPage.FilteredInOrder | frontend/src/pages/investor/Market.jsx:27 | the table keeps the list's order |
| MarketPage.IndexOf | frontend/src/pages/investor/Market.jsx:34 | the first occurrence of a value: it is there, and nowhere before |
| MarketPage.Distinct | frontend/src/pages/investor/Market.jsx:34 | the distinct values hold each value of the list exactly once |
| MarketPage.IndexOfPrefix | frontend/src/pages/investor/Market.jsx:34 | a value's first occurrence in a prefix is its first occurrence in the whole list |
| MarketPage.DistinctInFirstOrder | frontend/src/pages/investor/Market.jsx:34 | the distinct values come in the order of their first occurrences |
| MarketPage.Sectors | frontend/src/pages/investor/Market.jsx:34 | the sector buttons are 'all' followed by each sector of the stocks exactly once |
| MarketPage.RowTrend | frontend/src/pages/investor/Market.jsx:198-199 | a row is drawn "up" exactly when its change is not negative, "down" exactly when it is negative |
| Sorting.ReversedTail | frontend/src/pages/investor/Market.jsx:23 | reversing the last n elements puts the i-th element from the end at position i |
| Sorting.SortDescSorted | backend/app/api/routes/market.py:62 | `sorted(..., reverse=True)` yields a non-increasing order of the key |
| Sorting.SortDescPermutation | backend/app/api/routes/market.py:62 | the sort is a permutation of its input |
| Sorting.SortDescMembers | backend/app/api/routes/market.py:62 | the sort keeps exactly the input's elements |
| Sorting.InsertDescStable | backend/app/api/routes/market.py:62 | inserting into a sorted list places the element after every element of the same key |
| Sorting.SortDescStable | backend/app/api/routes/market.py:62 | the sort is stable: the elements of any one key keep their input order |
| Sorting.TopAndBottom | backend/app/api/routes/market.py:63-64 | in a sorted list the first n keys bound every other key from above and the last n from below |
| Sorting.SortedEnds | backend/app/api/routes/market.py:64 | the reversed last n of a descending list are ascending |
| ProfilePage.Config | frontend/src/pages/investor/Profile.jsx:21-49 | exactly the three profiles conservative, moderate and aggressive have a configuration |
| ProfilePage.ProfileLabel | frontend/src/pages/investor/Profile.jsx:191 | a headline label exists exactly for a configured profile: the Arabic one under "ar", the French one otherwise |
| ProfilePage.CurrentProfile | frontend/src/pages/investor/Profile.jsx:121 | the current profile is never empty: the response's profile name, or "moderate" when it is missing or empty |
| ProfilePage.Confidence | frontend/src/pages/investor/Profile.jsx:198-202 | the confidence shown is never 0: the response's confidence, or 0.5 when it is missing or 0 |
| ProfilePage.RawScore | frontend/src/pages/investor/Profile.jsx:213-214 | a score is read from the response's scores, 0 when absent |
| ProfilePage.Score | frontend/src/pages/investor/Profile.jsx:212-214 | the conservative and aggressive cards show the response's scores |
| ProfilePage.ScoresSumToOne | frontend/src/pages/investor/Profile.jsx:212-214 | the three cards' scores always add up to 1, whatever the response |
| ProfilePage.ModerateScoreBounds | frontend/src/pages/investor/Profile.jsx:213 | with the two other scores in [0, 1] and adding up to at most 1, the moderate score lies in [0, 1] |
| ProfilePage.BarWidth | frontend/src/pages/investor/Profile.jsx:231 | a score bar is the score in percent but never narrower than 5 % |
| ProfilePage.MetricValue | frontend/src/pages/investor/Profile.jsx:292-302 | a metric is read from the response's metrics, 0 when absent |
| ProfilePage.MetricPercent | frontend/src/pages/investor/Profile.jsx:58 | a metric bar is the value in percent but never beyond 100 % |
| ProfilePage.FallbackShown | frontend/src/pages/investor/Profile.jsx:90-107 | the fallback shows a moderate investor ("Modere") with confidence 0.72, a moderate score of 0.4 and a volatility preference of 0.42 |
| ProfilePage.Toggled | frontend/src/pages/investor/Profile.jsx:113-119 | toggling selects the goal exactly when it was not selected and leaves every other goal as it was |
| ProfilePage.FilterKeepsNoDuplicates | frontend/src/pages/investor/Profile.jsx:116 | removing a goal keeps a selection free of duplicates |
| ProfilePage.ToggleKeepsNoDuplicates | frontend/src/pages/investor/Profile.jsx:113-119 | toggling never makes a goal appear twice |
| ProfilePage.ToggleTwice | frontend/src/pages/investor/Profile.jsx:113-119 | toggling a goal twice selects the same goals again, and gives back the very same list for a goal that was not selected |
| ProfilePage.ProfileView.constructor | frontend/src/pages/investor/Profile.jsx:77-79 | the page starts with no profile, loading, and "growth" as the only goal |
| ProfilePage.ProfileView.FetchProfile | frontend/src/pages/investor/Profile.jsx:84-110 | the profile is the response, or the fixed moderate fallback when the request fails; loading ends either way |
| ProfilePage.ProfileView.ToggleGoal | frontend/src/pages/investor/Profile.jsx:113-119 | the selection becomes the toggled one and stays free of duplicates |
| MarketRoutes.Put | backend/app/api/routes/market.py:39-42 | dictionary assignment: a new code is appended, a known code keeps its place and takes the new value |
| MarketRoutes.InfoFor | backend/app/api/routes/market.py:24-42 | nothing iff the stock has no rows; otherwise the newest close, with change 0 for a single row and the change in percent against the previous close when that is non-zero |
| MarketRoutes.LatestPrices | backend/app/api/routes/market.py:19-43 | the loop over the stocks builds exactly the dictionary of their entries, skipping stocks without prices |
| MarketRoutes.LatestPricesKeys | backend/app/api/routes/market.py:23-39 | the keys are exactly the codes of stocks that have prices, each once |
| MarketRoutes.MarketOverview | backend/app/api/routes/market.py:46-71 | TUNINDEX with zeros and empty lists when nothing has prices; otherwise the mean change, the index 9000 + 10 × mean, and at most five gainer and five loser codes |
| MarketRoutes.TopMovers | backend/app/api/routes/market.py:74-84 | min(n, 5) gainers and min(n, 5) losers |
| MarketRoutes.MoversAreEntries | backend/app/api/routes/market.py:77-83 | every mover is an entry of the dictionary |
| MarketRoutes.MoversAreEnds | backend/app/api/routes/market.py:77-83 | the gainers are the first five of the descending sort and the losers its last five, reversed |
| MarketRoutes.MoversAreExtreme | backend/app/api/routes/market.py:77-83 | every entry among the first five of the descending sort moved at least as much as every later entry, and every entry among the last five at most as much as every earlier entry |
| MarketRoutes.MoversOrdered | backend/app/api/routes/market.py:79-83 | gainers come largest first, losers smallest first |
| MarketRoutes.OverviewMatchesMovers | backend/app/api/routes/market.py:62-64 | the overview's lists are the codes of the top movers |
| MarketRoutes.OverviewBounds | backend/app/api/routes/market.py:58-60 | when every change lies in [lo, hi] so does the index change, and the index value lies in [9000 + 10·lo, 9000 + 10·hi] |
| Monitoring.NewActivity | frontend/src/pages/inspector/Monitoring.jsx:17-27 | a simulated entry is a trade exactly when the first draw exceeds 0.3 (an order otherwise), a buy exactly when the third exceeds 0.5 (a sell otherwise), its symbol is one of the eight feed symbols, its shares lie in [100, 5099] and it is flagged exactly when the last draw exceeds 0.85 |
| Monitoring.Pushed | frontend/src/pages/inspector/Monitoring.jsx:28 | the new entry goes first, followed by the 49 most recent older entries, so the feed never exceeds 50 |
| Monitoring.StatsOf | frontend/src/pages/inspector/Monitoring.jsx:38-44 | the statistics count trades, orders and flagged entries over the whole feed, trades and orders never exceed the feed, and when every entry is a buy or a sell the two volumes add up to all the shares |
| Monitoring.CountPrepend | frontend/src/pages/inspector/Monitoring.jsx:39-41 | counting over a list with an entry in front adds one exactly when that entry qualifies |
| Monitoring.VolumesSplit | frontend/src/pages/inspector/Monitoring.jsx:42-43 | when every entry is a buy or a sell, the bought and sold volumes add up to all the shares of the feed |
| Monitoring.TickCounts | frontend/src/pages/inspector/Monitoring.jsx:28-41 | while the feed is below its limit, a tick adds the new entry to exactly the counts it qualifies for |
| Monitoring.MonitoringPage.constructor | frontend/src/pages/inspector/Monitoring.jsx:8-10 | the page starts live, unfiltered, on the initial feed |
| Monitoring.MonitoringPage.Displayed | frontend/src/pages/inspector/Monitoring.jsx:34-36 | the whole feed when the filter is off; exactly the flagged entries, in feed order, when it is on |
| Monitoring.MonitoringPage.Tick | frontend/src/pages/inspector/Monitoring.jsx:13-32 | a paused page ignores the tick; otherwise the drawn entry goes first and the feed keeps at most 50 entries |
| Monitoring.MonitoringPage.TogglePaused | frontend/src/pages/inspector/Monitoring.jsx:66 | the pause button flips the paused state |
| Monitoring.MonitoringPage.ToggleFlaggedOnly | frontend/src/pages/inspector/Monitoring.jsx:58 | the filter button flips the flagged-only filter |
| NewsCard.SentimentConfigOf | frontend/src/components/news/NewsCard.jsx:15-24 | the success badge exactly for "positive", the danger badge exactly for "negative", and the neutral badge exactly for any other or missing label |
| NewsCard.FormatDate | frontend/src/components/news/NewsCard.jsx:26-34 | an empty date is shown as nothing, any other as its locale rendering |
| NewsCard.Preview | frontend/src/components/news/NewsCard.jsx:71 | the preview is the content's first 150 characters followed by "...", the whole content when it is shorter |
| NewsCard.CardOf | frontend/src/components/news/NewsCard.jsx:36-94 | the card shows its label's badge, the AR badge and right-to-left text exactly for Arabic articles, the preview exactly for non-empty content, the date exactly when there is one, the score unless it is null, and the link exactly when there is a url |
| NewsCard.KeyOf | frontend/src/components/news/NewsCard.jsx:125 | a card is keyed by its id unless the id is missing or 0, and by its url otherwise |
| NewsCard.NewsListView | frontend/src/components/news/NewsCard.jsx:96-129 | three placeholders while loading, the empty message for missing or empty articles, and otherwise one card per article, in order |
| NewsCard.ListShowsCardsIff | frontend/src/components/news/NewsCard.jsx:96-129 | the list shows cards exactly when it is not loading and has articles |
| NewsCard.SummaryViewOf | frontend/src/components/news/NewsCard.jsx:131-170 | a placeholder while loading, nothing without a summary, otherwise its label's badge, its average score in percent, its article count and its period |
| NewsCard.MockDays | frontend/src/components/news/NewsCard.jsx:182-193 | the mock timeline is the 14 days up to today, oldest first, each score in [0.3, 0.7) and each count in [2, 9] |
| NewsCard.MoodOf | frontend/src/components/news/NewsCard.jsx:198 | a day is positive exactly above 0.55, negative exactly below 0.45 and neutral in between |
| NewsCard.Formatted | frontend/src/components/news/NewsCard.jsx:195-199 | one point per day, in order, with its score in percent and its class |
| NewsCard.MoodMatchesPercentage | frontend/src/components/news/NewsCard.jsx:195-244 | read off the drawn percentage, a day is positive exactly above 55 and negative exactly below 45, and never contradicts the dashed line at 50 |
| NewsCard.TimelineOf | frontend/src/components/news/NewsCard.jsx:182-199 | the timeline draws the given days, or the mock days when there are none, so it is never empty |
| NewsCard.MockTimelineRange | frontend/src/components/news/NewsCard.jsx:182-199 | without data the timeline has 14 points, each between 30 % and 70 % |
| NewsCard.TimelineTickOfIsoDate | frontend/src/components/news/NewsCard.jsx:232-235 | an ISO date is labelled day/month |
| PortfolioRoutes.ValidateTrade | backend/app/models/schemas.py:93-96 | a trade request is accepted iff quantity and price are positive, otherwise 422 |
| PortfolioRoutes.Oldest | backend/app/api/routes/portfolio.py:82-87 | none iff the user holds no position in the stock; otherwise the user's position in it with the earliest creation time, the first row among ties |
| PortfolioRoutes.SellSpec | backend/app/api/routes/portfolio.py:76-98 | 404 without a position, 400 when the oldest position holds too few shares, otherwise that position reduced and deleted when it reaches 0 |
| PortfolioRoutes.NewPosition | backend/app/api/routes/portfolio.py:63-69 | the bought position belongs to the user, in that stock, with the requested quantity at the requested price |
| PortfolioRoutes.HoldingOf | backend/app/api/routes/portfolio.py:40-53 | valued iff there is a non-zero latest close, and then at close × quantity |
| PortfolioRoutes.ListingFacts | backend/app/api/routes/portfolio.py:30-54 | the listing holds each of the user's positions once, in table order, valued at its stock's latest close, and nothing else |
| PortfolioRoutes.PortfolioTable.constructor | backend/app/api/routes/portfolio.py:14 | an empty table whose first id is 1 |
| PortfolioRoutes.PortfolioTable.List | backend/app/api/routes/portfolio.py:30-54 | the loop returns exactly the listing of the user's positions |
| PortfolioRoutes.PortfolioTable.Buy | backend/app/api/routes/portfolio.py:57-73 | appends the new position under a fresh id and returns that id, keeping the table valid |
| PortfolioRoutes.PortfolioTable.Sell | backend/app/api/routes/portfolio.py:76-98 | the table becomes the sell specification's result, or stays as it was with its 400/404 error |
| PortfolioRoutes.SellKeepsPositive | backend/app/api/routes/portfolio.py:92-96 | a successful sell leaves no empty position and invents no position |
| PortfolioRoutes.SellConservesShares | backend/app/api/routes/portfolio.py:90-96 | selling removes exactly the requested shares from that user's holding of that stock and changes no other holding |
| PortfolioRoutes.BuyAddsShares | backend/app/api/routes/portfolio.py:63-71 | buying adds exactly the requested shares to the user's holding |
| PortfolioRoutes.SellLooksAtOnePosition | backend/app/api/routes/portfolio.py:82-91 | only the oldest position is consulted: holding 5 + 5 shares, a sale of 6 is refused |
| NlpSentiment.LabelFor | nlp/sentiment/analyzer.py:247-252 | positive iff the score exceeds 0.2, negative iff below −0.2, neutral in between |
| NlpSentiment.MoodFor | nlp/sentiment/analyzer.py:373-378 | bullish iff the market score exceeds 0.1, bearish iff below −0.1, neutral in between |
| NlpSentiment.ArabicAtMostNonBlank | nlp/sentiment/analyzer.py:166-168 | the Arabic characters never outnumber the non-space characters |
| NlpSentiment.DetectLanguage | nlp/sentiment/analyzer.py:160-174 | "ar" exactly when more than 30% of the non-space characters are Arabic, "fr" otherwise, including the empty and the all-space text |
| NlpSentiment.RatioAbove | nlp/sentiment/analyzer.py:173-174 | the ratio test a/t > 0.3 is the cross-multiplied test 10a > 3t |
| NlpSentiment.MatchesIn | nlp/sentiment/analyzer.py:223-231 | the matched words are a subset of the vocabulary |
| NlpSentiment.LexiconScore | nlp/sentiment/analyzer.py:233-242 | the score s satisfies s·(pos + neg) = pos − neg, so it is (pos − neg)/(pos + neg); it lies in [−1, 1], is positive iff more positive matches, −1 iff no positive match, 1 iff no negative match |
| NlpSentiment.RuleVerdict | nlp/sentiment/analyzer.py:213-263 | no match gives score 0, neutral, confidence 0.3; otherwise the score is the lexicon score of the positive and negative match counts, with its label and confidence min(total/5, 1) |
| NlpSentiment.CollectMatches | nlp/sentiment/analyzer.py:223-231 | whatever the set's iteration order, the count is the number of distinct vocabulary words occurring in the text and the list holds exactly those words once each |
| NlpSentiment.RuleBasedSentiment | nlp/sentiment/analyzer.py:213-263 | the rule path's verdict with at most five matched terms per polarity, each really matched |
| NlpSentiment.ModelVerdict | nlp/sentiment/analyzer.py:186-209 | no verdict without a pipeline, when the call raises or when the label does not start with a digit; otherwise the star score (s − 3)/2 with its label and the raw label |
| NlpSentiment.Analyze | nlp/sentiment/analyzer.py:176-211 | the analysis is the short-text neutral answer, the model verdict on the first 512 characters, or the rule verdict when the model gives none |
| NlpSentiment.ShortTextIsNeutral | nlp/sentiment/analyzer.py:177-178 | a stripped text shorter than 10 characters is neutral with score and confidence 0, in the given language or "unknown" |
| NlpSentiment.TruncationIgnoresTail | nlp/sentiment/analyzer.py:184 | with the language given, text after the first 512 characters changes nothing |
| NlpSentiment.StarScores | nlp/sentiment/analyzer.py:190-199 | labels "1 star" … "5 stars" give −1, −0.5, 0, 0.5, 1, labelled negative, negative, neutral, positive, positive |
| NlpSentiment.AnalyzeScoreBounds | nlp/sentiment/analyzer.py:176-211 | without a pipeline every long-enough text uses the lexicon and scores in [−1, 1]; any digit label keeps the score in [−1.5, 3] |
| NlpSentiment.CombineScores | nlp/sentiment/analyzer.py:276 | the 1.5 : 1 title/content blend lies between the two scores |
| NlpSentiment.CombineIgnoresMatched | nlp/sentiment/analyzer.py:274-280 | the title/content blend reads only scores and confidences, so analyses that differ only in their matched terms give the same article record |
| NlpSentiment.AnalyzeArticle | nlp/sentiment/analyzer.py:265-299 | the title is analysed with the article's (or the detected) language, content longer than 50 characters is blended in, otherwise the title's score with 70% of its confidence |
| NlpSentiment.AnalyzeBatch | nlp/sentiment/analyzer.py:301-303 | one analysis per article, in order |
| NlpSentiment.ArticleBounds | nlp/sentiment/analyzer.py:274-287 | without a pipeline an article scores in [−1, 1] with confidence in [0, 1]; a title-only article keeps 70% of the title's confidence |
| NlpSentiment.AnalyzeConfidenceBounds | nlp/sentiment/analyzer.py:176-263 | without a pipeline the confidence lies in [0, 1] |
| NlpSentiment.Decay | nlp/sentiment/analyzer.py:328 | every weight 0.8^i lies in (0, 1] |
| NlpSentiment.DecayDecreasing | nlp/sentiment/analyzer.py:328 | earlier articles weigh strictly more |
| NlpSentiment.TotalWeight | nlp/sentiment/analyzer.py:328-329 | the weights' total is positive for a non-empty list |
| NlpSentiment.WeightedSumBounds | nlp/sentiment/analyzer.py:329 | scores in [lo, hi] give a weighted sum between lo and hi times the total weight |
| NlpSentiment.WeightedSumAbove | nlp/sentiment/analyzer.py:329 | scores of at least lo give a weighted sum of at least lo times the total weight |
| NlpSentiment.WeightedSumBelow | nlp/sentiment/analyzer.py:329 | scores of at most hi give a weighted sum of at most hi times the total weight |
| NlpSentiment.WeightedMeanBounds | nlp/sentiment/analyzer.py:329 | the weighted mean of scores in [lo, hi] lies in [lo, hi] |
| NlpSentiment.WeightedMeanConstant | nlp/sentiment/analyzer.py:329 | equal scores average to that score |
| NlpSentiment.ArticleSpecs | nlp/sentiment/analyzer.py:323 | one analysis per article, in order |
| NlpSentiment.CalculateDailySentiment | nlp/sentiment/analyzer.py:311-350 | no articles give the neutral zero day; otherwise the decayed weighted mean score, confidence (mean confidence + min(n/5, 1))/2, the article count and the first five analyses |
| NlpSentiment.DailyBounds | nlp/sentiment/analyzer.py:311-350 | without a pipeline the daily score lies in [−1, 1], the confidence in [0, 1], and at most five analyses are kept |
| NlpSentiment.Scores | nlp/sentiment/analyzer.py:361 | the scores of the given stocks, in order |
| NlpSentiment.GetMarketSentiment | nlp/sentiment/analyzer.py:352-387 | a KeyError iff an entry lacks article_count; neutral zero when no stock has articles; otherwise the mean over stocks with articles, its mood, and confidence = their share of all stocks |
| NlpSentiment.MarketScoreBounds | nlp/sentiment/analyzer.py:361-371 | the market score lies between the extreme contributing stock scores |
| PortfolioPage.RoiSign | frontend/src/pages/investor/Portfolio.jsx:28-30 | the roi is positive exactly when something is invested and the portfolio is worth more than the investment, and negative exactly when it is worth less |
| PortfolioPage.Returns | frontend/src/pages/investor/Portfolio.jsx:11 | the returns are every holding's gain percentage as a fraction, in order, and are not a number as soon as one gain percentage is not |
| PortfolioPage.SquaredDeviations | frontend/src/pages/investor/Portfolio.jsx:14 | one squared deviation from the mean per return |
| PortfolioPage.VarianceNonNegative | frontend/src/pages/investor/Portfolio.jsx:13-15 | the population variance is never negative |
| PortfolioPage.ConstantReturnsNoVariance | frontend/src/pages/investor/Portfolio.jsx:12-15 | identical returns have no variance |
| PortfolioPage.SharpeRatio | frontend/src/pages/investor/Portfolio.jsx:18-19 | the Sharpe ratio is positive exactly when there is deviation and the average return beats the monthly risk-free rate of 7 % a year, negative exactly when it falls short, and 0 otherwise |
| PortfolioPage.SharpeLabel | frontend/src/pages/investor/Portfolio.jsx:139 | "Excellent" exactly above 1, "Good" exactly in (0.5, 1], "Moderate" exactly at or below 0.5 |
| PortfolioPage.DrawdownDanger | frontend/src/pages/investor/Portfolio.jsx:147 | the drawdown is shown in the danger colour exactly when it is a number above 20 |
| PortfolioPage.Peak | frontend/src/pages/investor/Portfolio.jsx:22 | the running peak is attained by one of the returns so far and is at least every one of them |
| PortfolioPage.Drawdown | frontend/src/pages/investor/Portfolio.jsx:21-25 | a drawdown is a number exactly when the running peak is not 0 |
| PortfolioPage.DrawdownBounds | frontend/src/pages/investor/Portfolio.jsx:21-25 | under a positive peak a drawdown is at least 0, and below 1 when the current value is positive |
| PortfolioPage.DrawdownFraction | frontend/src/pages/investor/Portfolio.jsx:24 | the fall from a positive peak, as a fraction of it, is non-negative and below 1 for a positive current value |
| PortfolioPage.Drawdowns | frontend/src/pages/investor/Portfolio.jsx:21-25 | one drawdown per return, in order |
| PortfolioPage.MaxWithZero | frontend/src/pages/investor/Portfolio.jsx:26 | the maximum with 0 is at least 0 and every element, and is either 0 or one of the elements |
| PortfolioPage.MaxDrawdown | frontend/src/pages/investor/Portfolio.jsx:26 | the maximum drawdown is a number exactly when every drawdown is; then it is non-negative, bounds every drawdown (in percent) and is either 0 or one of them |
| PortfolioPage.CalculateMetrics | frontend/src/pages/investor/Portfolio.jsx:10-33 | the metrics carry the roi, and a gain percentage that is not a number makes the Sharpe ratio 0 and the drawdown not a number |
| PortfolioPage.PageMetrics | frontend/src/pages/investor/Portfolio.jsx:39-42 | with no holdings or no summary all three metrics are 0 |
| PortfolioPage.MaxDrawdownBounded | frontend/src/pages/investor/Portfolio.jsx:21-26 | when no holding has lost everything, the maximum drawdown is a number in [0, 100) |
| PortfolioPage.ConstantReturnsNoSharpe | frontend/src/pages/investor/Portfolio.jsx:16-19 | identical returns give a Sharpe ratio of 0 |
| MlPrediction.FeatureVector | ml/src/prediction.py:338-342 | one entry per configured column, in order: the feature's value, or 0 when it is missing, NaN or infinite |
| MlPrediction.DayFor | ml/src/prediction.py:359-368 | the forecast of a horizon: date h days ahead, UP iff the predicted return is positive, return percentage = 100 × return, confidence in [0, 1] |
| MlPrediction.ForecastsFor | ml/src/prediction.py:351-368 | forecasts only for horizons that have a model, never more than the horizons |
| MlPrediction.ReturnPcts | ml/src/prediction.py:371-372 | the forecasts' return percentages, in order |
| MlPrediction.Recommend | ml/src/prediction.py:374-388 | HOLD at 0.5 with no forecasts; BUY iff the mean exceeds 1.5 (confidence min(mean/5, 1)), SELL iff below −1.5, else HOLD with confidence 1 − abs/1.5; confidence always in [0, 1] |
| MlPrediction.GenerateReasons | ml/src/prediction.py:403-435 | one to four lines: the trend line first, oversold iff RSI < 30, overbought iff RSI > 70 otherwise, bullish iff MACD histogram > 0, bearish iff < 0 otherwise, with NaN comparing false |
| MlPrediction.Predict | ml/src/prediction.py:310-401 | "No models loaded" or the missing-price error with empty predictions; otherwise the forecasts of the loaded horizons and their recommendation |
| MlPrediction.Forecasts | ml/src/prediction.py:351-368 | the per-horizon loop builds exactly the forecasts of the loaded horizons |
| MlPrediction.ForecastsSorted | ml/src/prediction.py:353 | forecasts come in strictly increasing horizon order |
| MlPrediction.ForecastsCover | ml/src/prediction.py:353-355 | every loaded horizon has a forecast |
| MlPrediction.PredictShape | ml/src/prediction.py:310-401 | with models and a price, one forecast per loaded horizon, each UP iff its return is positive with confidence in [0, 1], and a recommendation confidence in [0, 1] |
| MlPrediction.ForecastFacts | ml/src/prediction.py:366-367 | each forecast's direction matches its return's sign and its confidence lies in [0, 1] |
| MlPrediction.ForecastCount | ml/src/prediction.py:353-368 | as many forecasts as loaded horizons |
| MlPrediction.ForecastShape | ml/src/prediction.py:353-368 | with at least one model loaded, one forecast per loaded horizon, each UP iff its return is positive, with confidence in [0, 1] |
| MlPrediction.HorizonSetSize | ml/src/prediction.py:362 | the forecasts' horizons are distinct, so no day_<h> key is written twice |
| PredictionService.PctChanges | backend/app/services/prediction.py:97 | one change per consecutive pair of closes, each (next − previous)/previous |
| PredictionService.CurrentPrice | backend/app/services/prediction.py:88-92 | 10.0 for an empty history, otherwise the last close |
| PredictionService.FallbackDay | backend/app/services/prediction.py:103-111 | price = current × (1 + avg·d), return = 100·avg·d, UP iff avg ≥ 0, confidence in [0.3, 0.7] |
| PredictionService.FallbackRecommendation | backend/app/services/prediction.py:113-135 | BUY iff avg > 0.01, SELL iff avg < −0.01, HOLD otherwise; confidence in [0.3, 0.7]; the three fixed reasons |
| PredictionService.FallbackPrediction | backend/app/services/prediction.py:87-136 | five daily entries from the trend of the last 20 closes plus the fallback recommendation, model "fallback" |
| PredictionService.Predict | backend/app/services/prediction.py:65-85 | fewer than 60 rows always give the fallback; with 60 or more, the model's forecast when it returns one, otherwise the fallback |
| PredictionService.FallbackDirection | backend/app/services/prediction.py:108-109 | each fallback day's direction agrees with the sign of its return |
| PredictionService.FallbackIsLinear | backend/app/services/prediction.py:104-108 | the fallback is a straight line through the current price: day d moves d times as far as day 1 |
| PredictionService.FallbackRising | backend/app/services/prediction.py:104-109 | with a positive trend and price, later days forecast higher prices and are UP |
| PredictionService.RisingHistoryTrend | backend/app/services/prediction.py:94-100 | a steadily rising positive history has a positive trend |
| PredictionService.RisingChangesPositive | backend/app/services/prediction.py:97-98 | rising positive closes have a positive mean change |
| PredictionService.FlatHistoryHolds | backend/app/services/prediction.py:94-118 | a flat history has zero trend and is held |
| PredictionService.FlatChangesZero | backend/app/services/prediction.py:97-98 | equal closes have zero mean change |
| Auth.DemoMode | backend/app/core/auth.py:14 | demo mode is on when the variable is unset, and exactly when its lower-cased value is "true" |
| Auth.FirstWithUid | backend/app/core/auth.py:74-76 | a stored user with that Supabase id, or none iff no stored user has it |
| Auth.CurrentUser | backend/app/core/auth.py:42-95 | the demo user in demo mode; otherwise 401 without credentials or on a failed lookup, and the stored or newly stored user, the table growing by at most that one user |
| Auth.CurrentUserFacts | backend/app/core/auth.py:46-89 | the demo inspector iff the token mentions "inspector"; a first-time Supabase user is stored as an investor; a stored one is returned unchanged |
| Auth.RequireInvestor | backend/app/core/auth.py:98-104 | passes iff the role is investor or inspector, otherwise 403 "Investor access required" |
| Auth.RequireInspector | backend/app/core/auth.py:107-113 | passes iff the role is inspector, otherwise 403 "CMF Inspector access required" |
| Auth.AccessFacts | backend/app/core/auth.py:19-34 | inspector access implies investor access; demo users and newly stored users have investor access; only the demo inspector passes inspector routes in demo mode |
| Auth.OptionalUser | backend/app/core/auth.py:116-135 | the demo investor in demo mode; otherwise none without credentials or a valid token, and never a user that is not stored |
| Auth.OptionalAgreesWithCurrent | backend/app/core/auth.py:122-132 | outside demo mode the optional user of a valid token is the one get_current_user returns when it is already stored |
| SentimentService.RuleBasedAnalyze | backend/app/services/sentiment.py:61-84 | no hit gives score 0, neutral, confidence 0.2; otherwise the score is the lexicon score (pos − neg)/total of the hit counts, in [−1, 1], with its ±0.2 label and confidence min(total/5, 1) |
| SentimentService.LowerMatchesOnly | backend/app/services/sentiment.py:62 | a character that takes no part in case folding is matched by lower-casing only by itself |
| SentimentService.ContainsLower | backend/app/services/sentiment.py:62-67 | a word without letters that case folding touches occurs in the lower-cased text exactly when it occurs in the text |
| SentimentService.HitsLower | backend/app/services/sentiment.py:64-67 | for such words, matching against the lower-cased text finds the same words |
| SentimentService.ArabicUnfoldable | backend/app/services/sentiment.py:26-33 | no Arabic vocabulary word takes part in case folding |
| SentimentService.RuleBasedCaseInsensitive | backend/app/services/sentiment.py:61-84 | lower-casing the text first never changes the rule-based verdict |
| SentimentService.TextSpec | backend/app/services/sentiment.py:49-59 | the empty text is neutral with zero confidence; every answer has score in [−1, 1] and confidence in [0, 1] |
| SentimentService.PlainArticle | backend/app/services/sentiment.py:97-119 | content longer than 50 characters is blended 1.5 : 1 with the title, otherwise the title's score with 70% of its confidence; url and date default to ""; score in [−1, 1] |
| SentimentService.ArticleResultScore | backend/app/services/sentiment.py:86-119 | whichever record is returned, its score is the article's score |
| SentimentService.NewsScores | backend/app/services/sentiment.py:133-134 | one score per news item, in order |
| SentimentService.Service.constructor | backend/app/services/sentiment.py:12-14 | a new service has not loaded the NLP analyzer and has none |
| SentimentService.Service.InitNlp | backend/app/services/sentiment.py:35-47 | runs once: after it the flag is set and the analyzer exists iff the import succeeded the first time |
| SentimentService.Service.AnalyzeText | backend/app/services/sentiment.py:49-59 | the empty text or no analyzer gives the service's own answer; otherwise the analyzer's answer |
| SentimentService.Service.AnalyzeArticle | backend/app/services/sentiment.py:86-119 | the analyzer's full record when one is installed, otherwise the service's own blend |
| SentimentService.Service.StockSentiment | backend/app/services/sentiment.py:121-153 | no news gives the neutral zero record; otherwise the 0.8^i-weighted mean score, confidence min(n/5, 1), the count and the first five analyses |
| SentimentService.FreshServiceUsesRules | backend/app/services/sentiment.py:12-59 | _init_nlp is never called, so a freshly built service always scores with its own lexicon |
| SentimentService.StockSummaryBounds | backend/app/services/sentiment.py:121-153 | without the analyzer a stock's score lies in [−1, 1], its confidence in (0, 1], and at most five articles are kept |
| SentimentService.MarketSentimentOf | backend/app/services/sentiment.py:155-175 | neutral zero for no entries; otherwise the mean over entries with a positive article_count (missing reads 0), its mood, and their share as confidence |
| SentimentService.MarketAggregatesAgree | backend/app/services/sentiment.py:155-175 | when every entry has an article count, the backend and the NLP market aggregates agree on score, mood and confidence |
| Simulator.DemoStocksWellFormed | frontend/src/pages/investor/Simulator.jsx:21-27 | the five demonstration stocks have distinct codes and positive prices |
| Simulator.Held | frontend/src/pages/investor/Simulator.jsx:102 | the quantity held is the map's entry for the code, 0 when the code is absent |
| Simulator.LineIsProduct | frontend/src/pages/investor/Simulator.jsx:72 | q lots of a price add up to price times q |
| Simulator.ValueShift | frontend/src/pages/investor/Simulator.jsx:70-73 | changing one code's quantity by d changes the holdings' value by d times that code's price, whatever else is held |
| Simulator.PriceOfDistinct | frontend/src/pages/investor/Simulator.jsx:71 | with distinct codes, finding a stock by its code yields that stock's price |
| Simulator.TradeConservesValue | frontend/src/pages/investor/Simulator.jsx:70-90 | adding q shares of a demonstration stock raises the portfolio value by exactly price times q, so a trade moves worth between cash and holdings without changing the total |
| Simulator.ClampQuantity | frontend/src/pages/investor/Simulator.jsx:262 | the quantity input is always at least 1: a parsed value of 1 or more is kept, anything else becomes 1 |
| Simulator.Sold | frontend/src/pages/investor/Simulator.jsx:110-117 | selling shrinks only the sold code's entry by the quantity sold, removes it when nothing is left, and never leaves a non-positive entry |
| Simulator.Simulation.Profit | frontend/src/pages/investor/Simulator.jsx:75-76 | the profit is the total worth minus the initial balance of 100000 |
| Simulator.Simulation.constructor | frontend/src/pages/investor/Simulator.jsx:18-35 | the simulation starts with 100000 in cash, no holdings, no trades, the first stock selected, a quantity of 10, and zero profit |
| Simulator.Simulation.Select | frontend/src/pages/investor/Simulator.jsx:217 | picking a stock from the list selects it and keeps the state valid |
| Simulator.Simulation.SetQuantity | frontend/src/pages/investor/Simulator.jsx:262 | the quantity handler stores the clamped quantity |
| Simulator.Simulation.HandleBuy | frontend/src/pages/investor/Simulator.jsx:79-99 | a buy is refused with nothing changed exactly when the cost exceeds the balance; otherwise the cost leaves the balance, the shares join the holding, the trade is put first in the history, the total worth is unchanged and the balance stays non-negative |
| Simulator.Simulation.HandleSell | frontend/src/pages/investor/Simulator.jsx:101-126 | a sell is refused with nothing changed exactly when more is sold than is held; otherwise the revenue joins the balance, the holding shrinks and is removed at zero, the trade is put first in the history and the total worth is unchanged |
| Simulator.Simulation.HandleReset | frontend/src/pages/investor/Simulator.jsx:128-134 | a confirmed reset restores the initial balance, empties the holdings and the history and brings the profit back to zero; an unconfirmed one changes nothing |
| Simulator.ChartStep | frontend/src/pages/investor/Simulator.jsx:48-51 | a day's move never takes the price below 0.7 of the base price |
| Simulator.ChartPrice | frontend/src/pages/investor/Simulator.jsx:42-51 | the chart price stays non-negative and, after the first day, at least 0.7 of the base price |
| Simulator.Stretched | frontend/src/pages/investor/Simulator.jsx:53 | the high is never below the larger of open and close |
| Simulator.Shrunk | frontend/src/pages/investor/Simulator.jsx:54 | the low lies between 0 and the smaller of open and close |
| Simulator.ChartVolume | frontend/src/pages/investor/Simulator.jsx:55 | the volume lies between 10000 and 59999 |
| Simulator.ChartCandleOf | frontend/src/pages/investor/Simulator.jsx:44-64 | each day opens at the previous price and closes at the new one, its high and low enclose open and close, and its volume is in range |
| Simulator.GenerateChartData | frontend/src/pages/investor/Simulator.jsx:39-67 | the loop produces the 31 days of the chart specification, oldest first, dated 30 days back to today |
| Simulator.ChartJoins | frontend/src/pages/investor/Simulator.jsx:50-52 | each day of the chart opens exactly where the previous day closed |
| Sparkline.Spread | frontend/src/components/charts/Sparkline.jsx:9 | the spread is always positive: the gap between the largest and smallest value, or 1 when they are all equal |
| Sparkline.PartMonotone | frontend/src/components/charts/Sparkline.jsx:12-13 | a larger share of a non-negative length is no shorter, and strictly longer for a positive length |
| Sparkline.QuotientMonotone | frontend/src/components/charts/Sparkline.jsx:13 | dividing by the positive spread keeps the order of two values |
| Sparkline.LevelBounds | frontend/src/components/charts/Sparkline.jsx:7-13 | every value's level lies in [0, 1], the smallest at 0 and, when the values differ, the largest at 1 |
| Sparkline.EdgesX | frontend/src/components/charts/Sparkline.jsx:12 | the first value is placed on the left edge and the last on the right edge |
| Sparkline.InsideHeight | frontend/src/components/charts/Sparkline.jsx:13 | a level in [0, 1] is drawn inside the height |
| Sparkline.PointFacts | frontend/src/components/charts/Sparkline.jsx:11-15 | each point lies inside the box, the smallest value on the bottom edge and the largest on the top edge |
| Sparkline.Points | frontend/src/components/charts/Sparkline.jsx:11-15 | one point per value, the first on the left edge and the last on the right edge, every y inside the height, the smallest value at the bottom and the largest (when the values differ) at the top |
| Sparkline.HigherValueDrawnHigher | frontend/src/components/charts/Sparkline.jsx:13 | a larger value is never drawn lower than a smaller one, and strictly higher with a positive height |
| Sparkline.Path | frontend/src/components/charts/Sparkline.jsx:4-18 | the path is empty exactly for missing data or fewer than two values; otherwise a move to the first point followed by a line to each later point, in order |
| Sparkline.IsPositive | frontend/src/components/charts/Sparkline.jsx:22 | a line can only be positive with at least two values |
| Sparkline.PositiveEndsHigher | frontend/src/components/charts/Sparkline.jsx:13-22 | with a positive height a line is positive exactly when its last point is drawn no lower than its first |
| Sparkline.StrokeColor | frontend/src/components/charts/Sparkline.jsx:23-27 | for 'auto' green exactly when the line is positive and red exactly when it is not; violet for 'primary'; any other colour as given |
| AnomalyPanel.OrText | frontend/src/components/anomaly/AnomalyPanel.jsx:26-27 | a present non-empty text is kept, anything else gives the fallback |
| AnomalyPanel.EitherText | frontend/src/components/anomaly/AnomalyPanel.jsx:28 | the description when present and non-empty, else the message |
| AnomalyPanel.AlertOf | frontend/src/components/anomaly/AnomalyPanel.jsx:24-32 | a listed anomaly becomes an alert numbered by its position, with a non-empty severity and type (medium and default when missing), its description or message, and its value and threshold |
| AnomalyPanel.VerdictAlert | frontend/src/components/anomaly/AnomalyPanel.jsx:34-43 | a positive verdict becomes alert 0 with its severity and type (or the defaults), its description or the default message, its score as value and no threshold |
| AnomalyPanel.AlertsOf | frontend/src/components/anomaly/AnomalyPanel.jsx:23-46 | one alert per entry of a non-empty list, in order; otherwise one alert for a positive verdict; otherwise none; every alert's id is its position |
| AnomalyPanel.Dismissed | frontend/src/components/anomaly/AnomalyPanel.jsx:59-61 | dismissing keeps exactly the alerts with another id |
| AnomalyPanel.DismissedInOrder | frontend/src/components/anomaly/AnomalyPanel.jsx:59-61 | dismissing keeps the remaining alerts in their order |
| AnomalyPanel.DismissAbsent | frontend/src/components/anomaly/AnomalyPanel.jsx:59-61 | dismissing an id no alert carries changes nothing |
| AnomalyPanel.CountAllBut | frontend/src/components/anomaly/AnomalyPanel.jsx:60 | a predicate failing at exactly one position holds for all the others |
| AnomalyPanel.DismissFetchedRemovesOne | frontend/src/components/anomaly/AnomalyPanel.jsx:23-61 | on a freshly fetched list, dismissing an alert removes exactly that one alert |
| AnomalyPanel.AnomalyPanelView.constructor | frontend/src/components/anomaly/AnomalyPanel.jsx:9-11 | the panel starts with no alerts, not loading, and no error |
| AnomalyPanel.AnomalyPanelView.Badge | frontend/src/components/anomaly/AnomalyPanel.jsx:70 | the count badge is shown exactly when there are alerts, and shows their number |
| AnomalyPanel.AnomalyPanelView.FetchAnomalies | frontend/src/components/anomaly/AnomalyPanel.jsx:13-53 | without a stock code nothing changes; otherwise the answer's alerts replace the list, or a failure sets the error message and keeps the previous alerts; loading ends either way |
| AnomalyPanel.AnomalyPanelView.Dismiss | frontend/src/components/anomaly/AnomalyPanel.jsx:59-61 | the alerts become the dismissed list |
| StockData.RandomVolume | frontend/src/data/stocks.js:46 | a random volume lies between 10000 and 109999 |
| StockData.TrendBias | frontend/src/data/stocks.js:58 | the drift is 0.1 for "up", -0.1 for "down" and 0 for any other trend |
| StockData.SparkValue | frontend/src/data/stocks.js:54-61 | after any step the sparkline value lies in [10, 90] |
| StockData.GenerateSparklineData | frontend/src/data/stocks.js:53-65 | the loop produces exactly `length` values, the i-th being the value after i + 1 steps, each in [10, 90] |
| StockData.HistoryPrice | frontend/src/data/stocks.js:35-42 | after any day the running price is at least 0.7 of the base price |
| StockData.HistoryPoint | frontend/src/data/stocks.js:39-47 | a history point carries the running price, never below 0.7 of the base, and an in-range volume |
| StockData.GeneratePriceHistory | frontend/src/data/stocks.js:33-51 | the loop produces days + 1 points, oldest first, dated back from today, each price never below 0.7 of the base and each volume in range |
| StockData.NextPricePoint | frontend/src/data/stocks.js:39-47 | one day yields exactly the history point of that day and hands on the running price, floored at 0.7 of the base |
| StockData.CandleAt | frontend/src/data/stocks.js:77-96 | a candle built from the previous close has its price equal to its close, which moved by the day's first draw, and with a non-negative base its high and low enclose its open and close |
| StockData.CandleOf | frontend/src/data/stocks.js:77-96 | a candle's price is its close, and with a non-negative base its high and low enclose its open and close |
| StockData.GenerateOHLCData | frontend/src/data/stocks.js:67-100 | the loop produces days + 1 candles, oldest first, each computed from the previous close |
| StockData.NextCandle | frontend/src/data/stocks.js:78-94 | one day builds exactly the candle of the previous close and hands on a close that moved by the day's first draw |
| StockData.CandleSeries | frontend/src/data/stocks.js:78-86 | consecutive closes differ by exactly the day's move, and every candle's high and low enclose its open and close |
| StockRoutes.GetStock | backend/app/api/routes/stocks.py:23-27 | found iff some stock carries the code, and then it is the first such stock; otherwise 404 "Stock not found" |
| StockRoutes.LatestPrice | backend/app/api/routes/stocks.py:30-36 | the last min(n, 2) rows of the date-ordered history, oldest first |
| StockRoutes.QuoteAsWritten | backend/app/api/routes/stocks.py:91-110 | as the code computes it: no rows give no price and change 0, one row gives that close and 0, two or more give the SECOND-newest close and its change against the newest |
| StockRoutes.IntendedQuote | backend/app/api/routes/stocks.py:93-108 | the corrected quote: the newest close and date, and the change against the close before it (0 with fewer than two rows) |
| StockRoutes.QuoteChangeSign | backend/app/api/routes/stocks.py:96-100 | the corrected change is positive iff the newest close rose and negative iff it fell (positive previous close) |
| StockRoutes.QuoteAsWrittenIsStale | backend/app/api/routes/stocks.py:94-97 | a rise from 10 to 11 is reported at 10 with a negative change |
| StockRoutes.ListStocks | backend/app/api/routes/stocks.py:87-111 | one quote per stock, in stock order, each the as-written quote of that stock's rows |
| StockRoutes.StockDetail | backend/app/api/routes/stocks.py:114-133 | 404 iff no stock has the code, otherwise a quote for that code |
| StockRoutes.ListMean | backend/app/api/routes/stocks.py:61-62 | 0 for an empty list, otherwise mean × length = sum |
| StockRoutes.Std | backend/app/api/routes/stocks.py:64-69 | never 0; 1 for fewer than two values; otherwise the square root of the population variance unless that is 0 |
| StockRoutes.VarianceNonNegative | backend/app/api/routes/stocks.py:68 | the population variance is never negative |
| StockRoutes.ConstantStdIsOne | backend/app/api/routes/stocks.py:69 | a constant window has std reported as 1 |
| StockRoutes.Transactions | backend/app/api/routes/stocks.py:58 | each row's transaction count, a missing one as 0 |
| StockRoutes.Ranges | backend/app/api/routes/stocks.py:59 | each row's (high − low)/close, 0 for a zero close |
| StockRoutes.HistoricalStats | backend/app/api/routes/stocks.py:50-84 | empty for fewer than two rows; otherwise the second-to-last close and the mean and std of the last 20 volumes and closes, the mean of the last 10 ranges and the last 20 transaction counts |
| StockRoutes.PriceAverageBounds | backend/app/api/routes/stocks.py:72-80 | the 20-row price average lies between the lowest and the highest close |
| StockRoutes.RangeAverageNonNegative | backend/app/api/routes/stocks.py:59-82 | on well-formed rows the 10-row range average is not negative |

## Left out

- Network and page I/O are not modelled. This covers `fetch`, `requests` and BeautifulSoup downloads, and CSS selection on fetched pages. HTML pages, HTTP responses and selected elements are inputs.
- Databases are not modelled. This covers Supabase calls and SQLModel sessions. Query results are inputs and written rows are results.
- Concurrency and timing are not modelled. This covers the scheduler's background thread (`_run_loop`, `sleep`), `setInterval` polling and WebSocket streams.
- Files and callbacks are not modelled: `save_cache`/`load_cache` file I/O and the `on_news` callback.
- Machine-learning inference is not modelled. This covers XGBoost, IsolationForest and the transformers sentiment pipeline. Their outputs are parameters, and so is `FeatureEngineer`.
- Float rounding is not modelled. Python `round`, JavaScript `toFixed` and `Intl`/locale formatting are parameters or exact reals. `sqrt` is a parameter. `NaN` and `Infinity` are `None`.
- `Date`, `datetime.now()` and `Math.random` are inputs. The mock generators in frontend/src/data/stocks.js take their random draws as sequences.
- The i18n layer keeps its key lookup and fallback. The French and Arabic tables are parameters.
- Loading spinners, CSS classes and JSX layout are not modelled, beyond the values the components compute.
- NewsScrapers.DateIn: a space in a `strptime` format matches exactly one space here, not any run of whitespace, and a day written with a leading space (` 5`) is not accepted.
- The CSV loader groups rows in order of first appearance. pandas `groupby` sorts the keys, so the model does not capture the order in which stocks are inserted.
- `get_market_news` is `get_news_for_stock('TUNINDEX')`. It is covered by that function.
- Some stock routes only call a service and wrap its result: history, prediction, sentiment, recommendation and anomaly. They are modelled through the services they call. `list_news` and `get_stock_news` are database queries and are left out.
- frontend/src/data/anomalies.js is not part of this model. `ANOMALIES`, `INVESTIGATIONS`, `REPORTS` and `ACTIVITY_FEED` are inputs of the inspector pages.
- The fixtures in frontend/src/data/portfolio.js are inputs.
- The Investigations page's empty state is not modelled.
- CandlestickChart.PricesInsideDomain: requires positive, ordered prices (low ≤ open, close ≤ high). For other inputs the padded domain is not claimed to contain the candle.
- NewsCard.CardOf: an undefined sentiment score is treated like `null`.
- NewsCard.FormatDate: the `catch` branch cannot be reached with the model's date input, so it is not modelled.
- Sparkline.Path: number formatting in the SVG path is the `show` parameter. The random gradient id is not modelled.
- The Simulator's `profitPercent` string (`toFixed(2)`) is not modelled; the profit itself is.
- Fetched: `UseApi.PortfolioHook.Fetched` builds the holdings with the corrected `HoldingViewOf` of the Findings table. As written, a holding without a price shows the gain of `HoldingViewAsWritten`.
- ScoreOne, Process, ScoreAll, Run, ScrapeAndAnalyze, RunOnce: the scheduler's scoring loop runs the corrected `Scheduler.Scored` of the Findings table. As written, every article is stored neutral with score 0, as `Scheduler.ScoredAsWritten` states.
- RecordsOf, AddGroup, LoadData: the CSV loader converts rows with the corrected `DataLoader.RecordOf` of the Findings table. As written, a NaN count raises, as `DataLoader.RecordAsWritten` states.
- GetProfile, EmptyHistoryIsModerate: position sizes and preferences are exact reals. In Python `0.1 * 3` is 0.30000000000000004, above 0.3, so a new investor scores conservative 0.25 and aggressive 0.3 and is moderate with confidence 0.65 (the model: conservative 0.4, confidence 0.7); any average position size whose tripled float lands just above a threshold differs likewise.
- Concat, PromotedColumns: the float promotion of `pd.concat` is decided per raw column name. Columns whose names differ only by spaces or case, which merge after cleaning, are promoted separately, and pandas' handling of all-missing columns is not modelled. The loader's rows keep the expected columns only.
- KeyText: the text of a float key is the `floatText` parameter (Python's `str` of a float).
- AvgReturn, IsFallback, FallbackPrediction, Predict: require `NonZeroWindow`, no zero close before the last of the 20 rows. With one, pandas gives an infinite change, the mean is infinite or NaN, and the source still answers with infinite figures; infinite floats are not modelled here.
- Lower, Upper: fold ASCII and Latin-1 letters only. Python's `str.lower` and `str.upper` fold all of Unicode.
- Decimal, PyFloat, IsDigit, AllDigits, MarketData.RowsRaise, NewsScrapers.UrlDate, NewsScrapers.IlboursaDate, NewsScrapers.DateIn: read ASCII digits only, and refuse an exponent, `inf` and `nan`. Python's `float()` also takes other Unicode digits (such as Arabic-Indic ones), exponents, `inf` and `nan`. Likewise `\d` in the scrapers' and the market service's patterns and `strptime` accept any Unicode decimal digit, so a date or a figure written in such digits is read by the source and refused here.
- ResolvedText: a non-text `response` or `content` field becomes the message's content as it is, and the panel renders it with React, not `String()`: an array's items appear without commas, `true` renders as nothing, and an object makes the render throw. The model gives the text `String()` would (`ApiClient.Stringify`, numbers through the `show` parameter), which is not what the source shows for these values.
- ApiClient.Request: the TypeError's message for a `null` error body is V8's wording (`NullDetail`); other engines word it differently. The text of a numeric `detail` is the `show` parameter (JavaScript's number formatting).
- RowFor: the stored datetime is represented by the article's date text; which texts `fromisoformat` accepts is the `isIso` parameter of `NewsRoutes.NewsTable.CreateBatch`.
- PortfolioPage.DrawdownDanger: an infinite drawdown, shown in the danger colour by JavaScript, is merged with NaN into `None` and is not dangerous here.
- StockData.GeneratePriceHistory, StockData.GenerateOHLCData, StockData.GenerateSparklineData: the default arguments (30 days; 20 values with trend "up") are not modelled; every argument is passed.
- I18n.GetTranslation: JavaScript's `in` also finds inherited keys such as `toString`; the model's lookup sees only the table's own keys.
- ProfilePage.Config: indexing `PROFILE_CONFIG` also finds inherited keys such as `toString`; the model knows only the three profiles.

## Findings

| source | as written | input that shows it | evidently intended | confidence | as-written member | corrected member |
|---|---|---|---|---|---|---|
| backend/app/api/routes/stocks.py:28-36 | `_latest_price` returns the last two rows oldest first, and the listing takes `latest[0]` as the current price | closes 10 then 11: listed price 10, change −9.09 % | price 11, change +10 % | not executed | StockRoutes.QuoteAsWrittenIsStale | StockRoutes.IntendedQuote |
| frontend/src/services/api.js:83-86 | the chat call posts its second argument as `stock_code`, and the panel passes the history there | any message with a non-empty history: the backend reads no history | the history sent under `history` | not executed | AgentChat.HistoryNeverArrives | AgentChat.IntendedHistoryArrives |
| frontend/src/services/api.js:20 | every response, including the chat endpoint's event stream, is parsed as JSON | any streamed answer: the body starts with `data: ` and parsing fails | the stream read chunk by chunk | not executed | AgentChat.StreamedChatShowsApology | AgentChat.IntendedChatShowsAnswer |
| backend/app/db/data_loader.py:144-145 | `int(x or 0)` on a NaN count (NaN is truthy) raises | a row whose QUANTITE_NEGOCIEE is "-" | missing counts become 0 | not executed | DataLoader.NaNQuantityRaises | DataLoader.RecordOf |
| nlp/scrapers/scheduler.py:70 | reads `sentiment_result['sentiment']`, but `analyze` returns the label under `label`, so the except branch stores neutral | title "Benefices record", description "en hausse", rated by the rule-based fallback: stored neutral, 0 | positive, score 1 | not executed | Scheduler.KeyErrorHidesVerdict | Scheduler.Scored |
| frontend/src/services/useApi.js:154-155 | the gain uses the raw `current_price`, read as 0 when null | 10 shares at 20 with no latest close: gain −200, −100 % | no gain at the displayed price | not executed | UseApi.NullPriceShowsTotalLoss | UseApi.HoldingViewOf |
