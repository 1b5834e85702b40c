/** The agent endpoints: chat requests, the history handed to the agent,
    the server-sent-event framing of each streamed chunk, and the advice
    endpoint that bundles the three tool results with a recommendation. */
module AgentRoutes {
  import opened Common
  import D = Decision

  datatype HttpError = HttpError(status: nat, detail: string)

  datatype ChatMessage = ChatMessage(role: string, content: string)

  /** A history entry as the agent graph reads it: a dictionary whose keys
      may be missing. */
  datatype HistoryItem = HistoryItem(role: Option<string>, content: Option<string>)

  /** ChatRequest: the message must have at least one character. */
  function ValidateChat(message: string, history: Option<seq<ChatMessage>>): (r: Result<(string, Option<seq<ChatMessage>>), HttpError>)
    ensures r.Ok? <==> |message| >= 1
    ensures r.Ok? ==> r.value == (message, history)
    ensures r.Err? ==> r.error.status == 422
  {
    if |message| >= 1 then Ok((message, history)) else Err(HttpError(422, "String should have at least 1 character"))
  }

  /** _format_history: no history or an empty one gives None; otherwise one
      role/content dictionary per message, in order. */
  function FormatHistory(history: Option<seq<ChatMessage>>): (r: Option<seq<HistoryItem>>)
    ensures r.None? <==> history.None? || |history.value| == 0
    ensures r.Some? ==> |r.value| == |history.value|
    ensures r.Some? ==> forall i :: 0 <= i < |r.value| ==>
      r.value[i] == HistoryItem(Some(history.value[i].role), Some(history.value[i].content))
  {
    if history.None? || |history.value| == 0 then None
    else Some(seq(|history.value|, i requires 0 <= i < |history.value| =>
                HistoryItem(Some(history.value[i].role), Some(history.value[i].content))))
  }

  /** The event the stream sends for one chunk: a `data:` field and a blank
      line. */
  function Frame(chunk: string): (f: string)
    ensures |f| == |chunk| + 8
    ensures f[..6] == "data: " && f[6..|f| - 2] == chunk && f[|f| - 2..] == "\n\n"
  {
    "data: " + chunk + "\n\n"
  }

  /** The body of the event stream: the frames of the chunks, in order. */
  function Frames(chunks: seq<string>): string
  {
    if |chunks| == 0 then "" else Frame(chunks[0]) + Frames(chunks[1..])
  }

  lemma {:induction false} FramesConcat(a: seq<string>, b: seq<string>)
    ensures Frames(a + b) == Frames(a) + Frames(b)
    decreases |a|
  {
    if |a| > 0 {
      FramesConcat(a[1..], b);
      assert (a + b)[1..] == a[1..] + b;
    } else {
      assert a + b == b;
    }
  }

  /** What the advice tools did: returned their results, or raised. */
  datatype ToolOutcome = Results(signals: D.Signals) | RaisedValueError(message: string) | RaisedOther(message: string)

  datatype Advice = Advice(stock: string, signals: D.Signals, recommendation: D.Recommendation)

  /** get_investment_advice. */
  function InvestmentAdvice(stockCode: string, tools: ToolOutcome): (r: Result<Advice, HttpError>)
    ensures tools.RaisedValueError? ==> r == Err(HttpError(404, tools.message))
    ensures tools.RaisedOther? ==> r == Err(HttpError(500, tools.message))
    ensures tools.Results? ==>
      (r.Ok? && r.value.stock == stockCode && r.value.signals == tools.signals
       && r.value.recommendation == D.GetRecommendation(tools.signals))
  {
    match tools
    case RaisedValueError(m) => Err(HttpError(404, m))
    case RaisedOther(m) => Err(HttpError(500, m))
    case Results(s) => Ok(Advice(stockCode, s, D.GetRecommendation(s)))
  }
}
