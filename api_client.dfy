/** The frontend's request client: the URL and headers of each request,
    how a response becomes a value or an error message, the news query
    string, and the JSON bodies the endpoints post. */
module ApiClient {
  import opened Common
  import opened Text

  /** A JSON value as the client builds and receives them. */
  datatype Json = JNull | JBool(b: bool) | JNum(n: real) | JStr(s: string) | JArr(items: seq<Json>) | JObj(fields: seq<(string, Json)>)

  const DefaultBase := "http://localhost:8000"

  /** The message of the TypeError thrown on reading a property of `null`,
      as V8 words it. */
  const NullDetail := "Cannot read properties of null (reading 'detail')"

  /** API_BASE: the configured URL when it is non-empty, else the local
      server. */
  function ApiBase(configured: Option<string>): (r: string)
    ensures configured.Some? && configured.value != "" ==> r == configured.value
    ensures configured.None? || configured.value == "" ==> r == "http://localhost:8000"
  {
    if configured.Some? && configured.value != "" then configured.value else DefaultBase
  }

  /** The options a caller passes; a missing field is None. */
  datatype Options = Options(verb: Option<string>, body: Option<string>, headers: Option<map<string, string>>)

  /** The fetch configuration built from the options. */
  datatype Config = Config(verb: Option<string>, body: Option<string>, headers: map<string, string>)

  /** The headers object `{'Content-Type': 'application/json',
      ...options.headers}` is built first, but the later `...options`
      spread puts the caller's own headers object back in its place. */
  function ConfigFor(options: Options): (c: Config)
    ensures c.verb == options.verb && c.body == options.body
    ensures options.headers.None? ==> c.headers == map["Content-Type" := "application/json"]
    ensures options.headers.Some? ==> c.headers == options.headers.value
  {
    var merged := map["Content-Type" := "application/json"] + options.headers.GetOr(map[]);
    Config(options.verb, options.body, if options.headers.Some? then options.headers.value else merged)
  }

  /** A caller that sends its own headers loses the JSON content type unless
      it repeats it. */
  lemma OwnHeadersDropContentType()
    ensures "Content-Type" !in ConfigFor(Options(None, None, Some(map["X-Trace" := "1"]))).headers
  {
  }

  /** A response as the client sees it: its status and its body, parsed as
      JSON when it is JSON. */
  datatype Response = Response(ok: bool, status: nat, body: Option<Json>)

  /** `String(value)` on a JSON value: an array is its elements' texts
      joined by ",", a null element giving ""; an object is
      "[object Object]"; `show` is the text JavaScript gives a number. */
  function Stringify(j: Json, show: real -> string): string
  {
    match j
    case JNull => "null"
    case JBool(b) => if b then "true" else "false"
    case JNum(n) => show(n)
    case JStr(s) => s
    case JArr(items) => Join(ItemTexts(items, show), ",")
    case JObj(_) => "[object Object]"
  }

  /** The texts `Array.prototype.join` makes of an array's elements. */
  function ItemTexts(items: seq<Json>, show: real -> string): (r: seq<string>)
    ensures |r| == |items|
    ensures forall i :: 0 <= i < |items| ==> r[i] == if items[i].JNull? then "" else Stringify(items[i], show)
  {
    if |items| == 0 then []
    else [if items[0].JNull? then "" else Stringify(items[0], show)] + ItemTexts(items[1..], show)
  }

  /** A `detail` array of texts without commas reads back, split at the
      commas, as those texts; an array of n objects is n times
      "[object Object]". */
  lemma DetailArrayText(items: seq<Json>, show: real -> string)
    requires |items| > 0
    requires forall i :: 0 <= i < |items| ==> items[i].JStr? && ',' !in items[i].s
    ensures Split(Stringify(JArr(items), show), ',') == ItemTexts(items, show)
    ensures forall i :: 0 <= i < |items| ==> ItemTexts(items, show)[i] == items[i].s
  {
    var texts := ItemTexts(items, show);
    forall i, k | 0 <= i < |texts| && 0 <= k < |texts[i]|
      ensures texts[i][k] != ','
    {
      assert texts[i] == items[i].s;
    }
    SplitJoin(texts, ',');
  }

  /** Two validation errors give two "[object Object]" texts. */
  lemma DetailObjects(show: real -> string)
    ensures Stringify(JArr([JObj([]), JObj([])]), show) == "[object Object],[object Object]"
  {
    var texts := ItemTexts([JObj([]), JObj([])], show);
    assert texts == ["[object Object]", "[object Object]"];
    assert Join(texts, ",") == texts[0] + "," + Join(texts[1..], ",");
  }

  predicate JsonTruthy(j: Json)
  {
    match j
    case JNull => false
    case JBool(b) => b
    case JNum(n) => n != 0.0
    case JStr(s) => s != ""
    case _ => true
  }

  /** The value of `key` in an object, if present. */
  function Field(j: Json, key: string): (r: Option<Json>)
    ensures r.Some? ==> j.JObj? && exists i :: 0 <= i < |j.fields| && j.fields[i] == (key, r.value)
  {
    if j.JObj? then FieldIn(j.fields, key) else None
  }

  function FieldIn(fields: seq<(string, Json)>, key: string): (r: Option<Json>)
    ensures r.Some? ==> exists i :: 0 <= i < |fields| && fields[i] == (key, r.value)
    ensures r.None? ==> forall i :: 0 <= i < |fields| ==> fields[i].0 != key
  {
    if |fields| == 0 then None
    else if fields[0].0 == key then Some(fields[0].1)
    else
      var r := FieldIn(fields[1..], key);
      assert forall i :: 1 <= i < |fields| ==> fields[i] == fields[1..][i - 1];
      r
  }

  /** request: the parsed body when the response is ok; otherwise an error
      whose message is the body's truthy `detail`, `HTTP <status>` for a
      JSON body without one, and 'Request failed' for a body that is not
      JSON. A failure whose body is JSON `null` rejects with the TypeError
      of reading `detail` of null. An ok response whose body is not JSON
      rejects too, with the parser's message; `show` is the text
      JavaScript gives a number. */
  function Request(resp: Response, show: real -> string): (r: Result<Json, string>)
    ensures resp.ok && resp.body.Some? ==> r == Ok(resp.body.value)
    ensures resp.ok && resp.body.None? ==> r.Err?
    ensures !resp.ok ==> r.Err?
    ensures !resp.ok && resp.body.None? ==> r.error == "Request failed"
    ensures !resp.ok && resp.body == Some(JNull) ==> r.error == NullDetail
    ensures !resp.ok && resp.body.Some? && !resp.body.value.JNull? ==>
      var d := Field(resp.body.value, "detail");
      r.error == if d.Some? && JsonTruthy(d.value) then Stringify(d.value, show) else "HTTP " + NatToString(resp.status)
  {
    if !resp.ok && resp.body == Some(JNull) then Err(NullDetail)
    else if !resp.ok then
      var error := if resp.body.Some? then resp.body.value else JObj([("detail", JStr("Request failed"))]);
      var d := Field(error, "detail");
      Err(if d.Some? && JsonTruthy(d.value) then Stringify(d.value, show) else "HTTP " + NatToString(resp.status))
    else if resp.body.Some? then Ok(resp.body.value)
    else Err("Unexpected token in JSON")
  }

  /** The parameters of news.list; None is an absent key. */
  datatype NewsParams = NewsParams(limit: Option<nat>, stockCode: Option<string>, source: Option<string>,
                                   language: Option<string>, days: Option<nat>)

  /** The keys and values set on the query, in order: only truthy
      parameters. */
  function NewsQueryPairs(p: NewsParams): (r: seq<(string, string)>)
    ensures |r| <= 5
    ensures forall i :: 0 <= i < |r| ==> r[i].0 in {"limit", "stock_code", "source", "language", "days"} && r[i].1 != ""
  {
    (if p.limit.Some? && p.limit.value != 0 then [("limit", NatToString(p.limit.value))] else [])
    + (if p.stockCode.Some? && p.stockCode.value != "" then [("stock_code", p.stockCode.value)] else [])
    + (if p.source.Some? && p.source.value != "" then [("source", p.source.value)] else [])
    + (if p.language.Some? && p.language.value != "" then [("language", p.language.value)] else [])
    + (if p.days.Some? && p.days.value != 0 then [("days", NatToString(p.days.value))] else [])
  }

  /** URLSearchParams.toString: `key=value` pairs joined with '&', each
      value passed through the form encoding `encode`. */
  function QueryString(pairs: seq<(string, string)>, encode: string -> string): (r: string)
    ensures |pairs| == 0 ==> r == ""
  {
    Join(seq(|pairs|, i requires 0 <= i < |pairs| => pairs[i].0 + "=" + encode(pairs[i].1)), "&")
  }

  /** The endpoint news.list requests: '?' and the query exactly when some
      parameter is set. */
  function NewsListPath(p: NewsParams, encode: string -> string): (r: string)
    ensures |NewsQueryPairs(p)| == 0 ==> r == "/api/news"
    ensures |NewsQueryPairs(p)| > 0 ==> r == "/api/news?" + QueryString(NewsQueryPairs(p), encode)
  {
    var pairs := NewsQueryPairs(p);
    var qs := QueryString(pairs, encode);
    assert |pairs| > 0 ==> qs != "" by {
      if |pairs| > 0 {
        JoinNonEmpty(seq(|pairs|, i requires 0 <= i < |pairs| => pairs[i].0 + "=" + encode(pairs[i].1)), "&");
      }
    }
    if qs != "" then "/api/news?" + qs else "/api/news"
  }

  /** No parameters, no query string; all five give five pairs in the
      order limit, stock_code, source, language, days. */
  lemma NewsQueryShape(p: NewsParams, encode: string -> string)
    ensures p == NewsParams(None, None, None, None, None) ==> NewsListPath(p, encode) == "/api/news"
    ensures (p.limit.Some? && p.limit.value > 0 && p.stockCode.Some? && p.stockCode.value != ""
             && p.source.Some? && p.source.value != "" && p.language.Some? && p.language.value != ""
             && p.days.Some? && p.days.value > 0) ==>
      NewsQueryPairs(p) == [("limit", NatToString(p.limit.value)), ("stock_code", p.stockCode.value),
                            ("source", p.source.value), ("language", p.language.value), ("days", NatToString(p.days.value))]
  {
  }

  /** The body buy and sell post: exactly stock_code, quantity and price. */
  function TradeBody(stockCode: string, quantity: real, price: real): (j: Json)
    ensures j.JObj? && |j.fields| == 3
    ensures Field(j, "stock_code") == Some(JStr(stockCode)) && Field(j, "quantity") == Some(JNum(quantity))
      && Field(j, "price") == Some(JNum(price))
  {
    var fields := [("stock_code", JStr(stockCode)), ("quantity", JNum(quantity)), ("price", JNum(price))];
    assert fields[1..] == [("quantity", JNum(quantity)), ("price", JNum(price))];
    assert fields[1..][1..] == [("price", JNum(price))];
    assert "stock_code"[0] != "quantity"[0] && "stock_code"[0] != "price"[0] && "quantity"[0] != "price"[0];
    assert FieldIn(fields, "quantity") == FieldIn(fields[1..], "quantity") == Some(JNum(quantity));
    assert FieldIn(fields, "price") == FieldIn(fields[1..][1..], "price") == Some(JNum(price));
    JObj(fields)
  }

  /** The body agent.chat posts: the message and, under `stock_code`, the
      second argument, null when it is not given. */
  function ChatBody(message: string, second: Option<Json>): (j: Json)
    ensures j.JObj? && |j.fields| == 2
    ensures Field(j, "message") == Some(JStr(message))
    ensures Field(j, "stock_code") == Some(second.GetOr(JNull))
    ensures Field(j, "history") == None
  {
    var fields := [("message", JStr(message)), ("stock_code", second.GetOr(JNull))];
    assert fields[1..] == [("stock_code", second.GetOr(JNull))];
    assert fields[1..][1..] == [];
    assert "message"[0] != "stock_code"[0] && "message"[0] != "history"[0] && "stock_code"[0] != "history"[0];
    assert FieldIn(fields, "stock_code") == FieldIn(fields[1..], "stock_code") == Some(second.GetOr(JNull));
    JObj(fields)
  }

  /** Endpoints with default arguments; None is an omitted argument. */
  function LiveMoversPath(limit: Option<nat>): (r: string)
    ensures limit.None? ==> r == "/api/market/live/movers?limit=10"
  {
    "/api/market/live/movers?limit=" + NatToString(limit.GetOr(10))
  }

  function HistoryPath(code: string, days: Option<nat>): (r: string)
    ensures days.None? ==> r == "/api/stocks/" + code + "/history?days=30"
  {
    "/api/stocks/" + code + "/history?days=" + NatToString(days.GetOr(30))
  }

  function ForStockPath(code: string, limit: Option<nat>): (r: string)
    ensures limit.None? ==> r == "/api/news/stock/" + code + "?limit=10"
  {
    "/api/news/stock/" + code + "?limit=" + NatToString(limit.GetOr(10))
  }

  function StockSentimentPath(code: string, days: Option<nat>): (r: string)
    ensures days.None? ==> r == "/api/news/sentiment/" + code + "?days=7"
  {
    "/api/news/sentiment/" + code + "?days=" + NatToString(days.GetOr(7))
  }

  /** The full URL of a request. */
  function Url(configured: Option<string>, endpoint: string): (r: string)
    ensures r == ApiBase(configured) + endpoint
    ensures configured.None? ==> r == "http://localhost:8000" + endpoint
  {
    ApiBase(configured) + endpoint
  }
}
