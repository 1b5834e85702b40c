/** The LangGraph agent around the chat: the message list handed to the
    graph, the choice of language model from the configured keys, the
    streaming of answers without repeats, and the graph built once. */
module AgentGraph {
  import opened Common
  import R = AgentRoutes

  /** A chat message; AI messages carry the id the graph gives them. */
  datatype Message = Human(content: string) | AI(id: Option<string>, content: string) | System(content: string) | Tool(content: string)

  /** The message a history entry becomes, if any: empty content is dropped
      and so is an unknown role. */
  function MessageFor(item: R.HistoryItem): (m: Option<Message>)
    ensures m.Some? ==> item.content.Some? && item.content.value != "" && m.value.content == item.content.value
    ensures m.Some? <==> item.content.Some? && item.content.value != "" && item.role in {Some("user"), Some("assistant"), Some("system")}
    ensures m.Some? ==> (m.value.Human? <==> item.role == Some("user")) && (m.value.AI? <==> item.role == Some("assistant"))
  {
    var content := item.content.GetOr("");
    if content == "" then None
    else if item.role == Some("user") then Some(Human(content))
    else if item.role == Some("assistant") then Some(AI(None, content))
    else if item.role == Some("system") then Some(System(content))
    else None
  }

  /** The messages the history entries become, in order. */
  function Converted(items: seq<R.HistoryItem>): seq<Message>
  {
    if |items| == 0 then []
    else
      var m := MessageFor(items[|items| - 1]);
      Converted(items[..|items| - 1]) + (if m.Some? then [m.value] else [])
  }

  /** build_messages. */
  method BuildMessages(history: Option<seq<R.HistoryItem>>, userMessage: string) returns (messages: seq<Message>)
    ensures history.Some? ==> messages == Converted(history.value) + [Human(userMessage)]
    ensures history.None? ==> messages == [Human(userMessage)]
  {
    messages := [];
    if history.Some? && |history.value| > 0 {
      var items := history.value;
      for i := 0 to |items|
        invariant messages == Converted(items[..i])
      {
        assert items[..i + 1][..i] == items[..i];
        var m := MessageFor(items[i]);
        if m.None? {
          continue;
        }
        messages := messages + [m.value];
      }
      assert items[..|items|] == items;
    }
    messages := messages + [Human(userMessage)];
  }

  /** The converted history keeps the kept entries in order: entry `i`
      gives message `Count(kept before i)`, so the list has one message per
      kept entry. */
  lemma {:induction false} ConvertedKeepsOrder(items: seq<R.HistoryItem>)
    ensures |Converted(items)| == Count(items, (it: R.HistoryItem) => MessageFor(it).Some?)
    ensures forall i :: 0 <= i < |items| && MessageFor(items[i]).Some? ==>
      Count(items[..i], (it: R.HistoryItem) => MessageFor(it).Some?) < |Converted(items)|
      && Converted(items)[Count(items[..i], (it: R.HistoryItem) => MessageFor(it).Some?)] == MessageFor(items[i]).value
  {
    var keep := (it: R.HistoryItem) => MessageFor(it).Some?;
    if |items| > 0 {
      var front := items[..|items| - 1];
      ConvertedKeepsOrder(front);
      assert Count(items, keep) == Count(front, keep) + (if keep(items[|items| - 1]) then 1 else 0);
      forall i | 0 <= i < |items| && MessageFor(items[i]).Some?
        ensures Count(items[..i], keep) < |Converted(items)|
        ensures Converted(items)[Count(items[..i], keep)] == MessageFor(items[i]).value
      {
        if i < |front| {
          assert items[..i] == front[..i];
          assert items[i] == front[i];
        } else {
          assert items[..i] == front;
        }
      }
    }
  }

  /** Every message the history becomes has non-empty content, and none is
      a tool message. */
  lemma {:induction false} ConvertedNonEmpty(items: seq<R.HistoryItem>)
    ensures forall k :: 0 <= k < |Converted(items)| ==> Converted(items)[k].content != "" && !Converted(items)[k].Tool?
  {
    if |items| > 0 {
      ConvertedNonEmpty(items[..|items| - 1]);
    }
  }

  /** The provider of the language model. */
  datatype Provider = Groq | OpenAI | Anthropic

  predicate Truthy(key: Option<string>)
  {
    key.Some? && key.value != ""
  }

  /** _get_llm: the first configured key among GROQ, OpenAI and Anthropic
      decides; with none the call raises. */
  function SelectLlm(groqKey: Option<string>, openaiKey: Option<string>, anthropicKey: Option<string>): (r: Result<Provider, string>)
    ensures r == Ok(Groq) <==> Truthy(groqKey)
    ensures r == Ok(OpenAI) <==> !Truthy(groqKey) && Truthy(openaiKey)
    ensures r == Ok(Anthropic) <==> !Truthy(groqKey) && !Truthy(openaiKey) && Truthy(anthropicKey)
    ensures r.Err? <==> !Truthy(groqKey) && !Truthy(openaiKey) && !Truthy(anthropicKey)
  {
    if Truthy(groqKey) then Ok(Groq)
    else if Truthy(openaiKey) then Ok(OpenAI)
    else if Truthy(anthropicKey) then Ok(Anthropic)
    else Err("Missing GROQ_API_KEY, OPENAI_API_KEY, or ANTHROPIC_API_KEY")
  }

  /** A streamed state: its message list, or None for an empty state or one
      without messages. */
  type State = Option<seq<Message>>

  /** The AI answer a state announces, if any: its last message when that is
      an AI message with content. */
  function Answer(s: State): (a: Option<Message>)
    ensures a.Some? ==> a.value.AI? && a.value.content != ""
  {
    if s.None? || |s.value| == 0 then None
    else
      var m := s.value[|s.value| - 1];
      if m.AI? && m.content != "" then Some(m) else None
  }

  /** The messages stream_agent yields for `states`, given the id of the
      last yielded message. */
  function Yielded(states: seq<State>, lastId: Option<string>): seq<Message>
  {
    if |states| == 0 then []
    else
      var a := Answer(states[0]);
      if a.Some? && a.value.id != lastId then [a.value] + Yielded(states[1..], a.value.id)
      else Yielded(states[1..], lastId)
  }

  function Contents(ms: seq<Message>): (r: seq<string>)
    ensures |r| == |ms| && forall i :: 0 <= i < |ms| ==> r[i] == ms[i].content
  {
    seq(|ms|, i requires 0 <= i < |ms| => ms[i].content)
  }

  /** stream_agent. The last id starts as None, so an AI message without an
      id is never yielded. */
  method StreamAgent(states: seq<State>) returns (chunks: seq<string>)
    ensures chunks == Contents(Yielded(states, None))
  {
    chunks := [];
    var lastMessageId: Option<string> := None;
    var i := 0;
    while i < |states|
      invariant 0 <= i <= |states|
      invariant Contents(Yielded(states, None)) == chunks + Contents(Yielded(states[i..], lastMessageId))
    {
      assert states[i..][1..] == states[i + 1..];
      var a := Answer(states[i]);
      if a.Some? && a.value.id != lastMessageId {
        lastMessageId := a.value.id;
        assert Contents([a.value] + Yielded(states[i + 1..], lastMessageId))
          == [a.value.content] + Contents(Yielded(states[i + 1..], lastMessageId));
        chunks := chunks + [a.value.content];
      }
      i := i + 1;
    }
  }

  /** Every yielded chunk is the content of an AI message, and no two
      consecutive yields come from the same message id. */
  lemma {:induction false} YieldedNoRepeats(states: seq<State>, lastId: Option<string>)
    ensures forall k :: 0 <= k < |Yielded(states, lastId)| ==>
      Yielded(states, lastId)[k].AI? && Yielded(states, lastId)[k].content != ""
    ensures |Yielded(states, lastId)| > 0 ==> Yielded(states, lastId)[0].id != lastId
    ensures forall k :: 0 <= k < |Yielded(states, lastId)| - 1 ==>
      Yielded(states, lastId)[k].id != Yielded(states, lastId)[k + 1].id
  {
    if |states| > 0 {
      var a := Answer(states[0]);
      if a.Some? && a.value.id != lastId {
        YieldedNoRepeats(states[1..], a.value.id);
      } else {
        YieldedNoRepeats(states[1..], lastId);
      }
    }
  }

  /** A state repeated in the stream (the graph re-emits its last message
      while tools run) is yielded once. */
  lemma RepeatedStateYieldsOnce(s: State, id: string)
    requires Answer(s).Some? && Answer(s).value.id == Some(id)
    ensures Yielded([s, s], None) == [Answer(s).value]
  {
    var a := Answer(s).value;
    assert [s, s][1..] == [s];
    assert [s][1..] == [];
    assert Yielded([s], a.id) == Yielded([], a.id);
    assert Yielded([s, s], None) == [a] + Yielded([s], a.id);
  }

  /** The module-level graph cache; `graph` stands for the compiled graph. */
  class GraphCache {
    var graph: Option<nat>

    constructor()
      ensures graph.None?
    {
      graph := None;
    }

    /** get_graph: builds the graph on first use and reuses it afterwards;
        `build` is what _build_graph would return, including the error it
        raises without a key. */
    method GetGraph(build: Result<nat, string>) returns (r: Result<nat, string>)
      modifies this
      ensures old(graph).Some? ==> r == Ok(old(graph).value) && graph == old(graph)
      ensures old(graph).None? && build.Ok? ==> r == build && graph == Some(build.value)
      ensures old(graph).None? && build.Err? ==> r == build && graph.None?
    {
      if graph.None? {
        if build.Err? {
          return build;
        }
        graph := Some(build.value);
      }
      r := Ok(graph.value);
    }
  }
}
