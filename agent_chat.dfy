/** The chat panel: the submit guard, the history it sends, the reading of
    the server-sent-event stream into the last message, and the replies it
    falls back to. */
module AgentChat {
  import opened Common
  import opened Text
  import A = ApiClient
  import R = AgentRoutes
  import G = AgentGraph

  datatype Entry = Entry(role: string, content: string)

  const Apology := "Je suis desole, une erreur est survenue."
  const ErrorApology := "Je suis desole, une erreur est survenue. Veuillez reessayer."

  /** The submit guard: something to send and no request in flight. */
  predicate CanSubmit(input: string, isLoading: bool)
  {
    Trim(input) != "" && !isLoading
  }

  /** The text one data line contributes: what follows `data: `; other lines
      contribute nothing. */
  function LineData(line: string): (r: string)
    ensures StartsWith(line, "data: ") ==> r == line[6..]
    ensures !StartsWith(line, "data: ") ==> r == ""
  {
    if StartsWith(line, "data: ") then line[6..] else ""
  }

  /** The data the lines of one read contribute, in order. */
  function DataText(lines: seq<string>): string
  {
    if |lines| == 0 then "" else LineData(lines[0]) + DataText(lines[1..])
  }

  lemma {:induction false} DataTextAppend(lines: seq<string>, line: string)
    ensures DataText(lines + [line]) == DataText(lines) + LineData(line)
  {
    if |lines| == 0 {
      assert [line][1..] == [];
    } else {
      assert (lines + [line])[1..] == lines[1..] + [line];
      DataTextAppend(lines[1..], line);
    }
  }

  /** The text one read adds to the answer: its data lines, after
      splitting on '\n'. */
  function ReadText(chunk: string): string
  {
    DataText(Split(chunk, '\n'))
  }

  /** The answer accumulated over the reads. */
  function Accumulated(received: seq<string>): string
  {
    if |received| == 0 then "" else Accumulated(received[..|received| - 1]) + ReadText(received[|received| - 1])
  }

  /** How the chat call ended: a readable stream (what each read delivered,
      in order), a stream whose next read failed after those reads, a
      value without a stream, or a rejection. */
  datatype Reply = Streamed(received: seq<string>) | StreamFailed(received: seq<string>) | Resolved(data: A.Json) | Rejected

  /** A field that is present and truthy. */
  predicate Truthy(field: Option<A.Json>)
  {
    field.Some? && A.JsonTruthy(field.value)
  }

  /** `data.response || data.content || apology` on a resolved value, each
      field shown as JavaScript's text of it; `show` is the text of a
      number. */
  function ResolvedText(data: A.Json, show: real -> string): (r: string)
    ensures A.Field(data, "response").Some? && A.JsonTruthy(A.Field(data, "response").value) ==>
      r == A.Stringify(A.Field(data, "response").value, show)
    ensures !Truthy(A.Field(data, "response")) && Truthy(A.Field(data, "content")) ==>
      r == A.Stringify(A.Field(data, "content").value, show)
    ensures !Truthy(A.Field(data, "response")) && !Truthy(A.Field(data, "content")) ==> r == Apology
  {
    var response := A.Field(data, "response");
    var content := A.Field(data, "content");
    if response.Some? && A.JsonTruthy(response.value) then A.Stringify(response.value, show)
    else if content.Some? && A.JsonTruthy(content.value) then A.Stringify(content.value, show)
    else Apology
  }

  /** A resolved value with a truthy `body` field takes the streaming
      branch, where `getReader` is not a function. */
  predicate HasBody(data: A.Json)
  {
    Truthy(A.Field(data, "body"))
  }

  /** A resolved value the panel throws a TypeError on: `null` has no
      `body` to read; a truthy `body` takes the streaming branch, where
      `getReader` is not a function; a `json` field that is not null is
      called by `response.json?.()`, and no JSON value is a function. */
  predicate Throws(data: A.Json)
  {
    data.JNull? || HasBody(data) || (A.Field(data, "json").Some? && !A.Field(data, "json").value.JNull?)
  }

  /** The assistant message a reply leaves last in the list: the streamed
      answer; the catch's apology for a failed read, a rejected call or a
      resolved value the code throws on; otherwise the resolved value's
      text. */
  function ReplyText(reply: Reply, show: real -> string): (r: string)
    ensures reply.Streamed? ==> r == Accumulated(reply.received)
    ensures reply.StreamFailed? || reply.Rejected? ==> r == ErrorApology
    ensures reply.Resolved? && Throws(reply.data) ==> r == ErrorApology
    ensures reply.Resolved? && !Throws(reply.data) ==> r == ResolvedText(reply.data, show)
  {
    match reply
    case Streamed(received) => Accumulated(received)
    case StreamFailed(_) => ErrorApology
    case Resolved(data) => if Throws(data) then ErrorApology else ResolvedText(data, show)
    case Rejected => ErrorApology
  }

  /** A resolved `null`, and an object whose `json` field is not null, end
      in the catch's apology even when they carry a `response`; a `json`
      field that is null is skipped by the optional call. */
  lemma ThrowingValuesApologize(show: real -> string)
    ensures ReplyText(Resolved(A.JNull), show) == ErrorApology
    ensures ResolvedText(A.JNull, show) == Apology
    ensures ReplyText(Resolved(A.JObj([("json", A.JNum(1.0)), ("response", A.JStr("x"))])), show) == ErrorApology
    ensures ResolvedText(A.JObj([("json", A.JNum(1.0)), ("response", A.JStr("x"))]), show) == "x"
    ensures ReplyText(Resolved(A.JObj([("json", A.JNull), ("response", A.JStr("x"))])), show) == "x"
  {
    var thrown := A.JObj([("json", A.JNum(1.0)), ("response", A.JStr("x"))]);
    var skipped := A.JObj([("json", A.JNull), ("response", A.JStr("x"))]);
    assert A.Field(thrown, "json") == Some(A.JNum(1.0));
    assert A.Field(thrown, "response") == Some(A.JStr("x"));
    assert A.Field(skipped, "json") == Some(A.JNull);
    assert A.Field(skipped, "body").None?;
    assert A.Field(skipped, "response") == Some(A.JStr("x"));
  }

  /** The assistant messages a reply appends: the partial answer of a
      failed stream stays in front of the apology. */
  function ReplyEntries(reply: Reply, show: real -> string): (r: seq<Entry>)
    ensures |r| == (if reply.StreamFailed? then 2 else 1)
    ensures r[|r| - 1] == Entry("assistant", ReplyText(reply, show))
    ensures reply.StreamFailed? ==> r[0] == Entry("assistant", Accumulated(reply.received))
  {
    (if reply.StreamFailed? then [Entry("assistant", Accumulated(reply.received))] else [])
    + [Entry("assistant", ReplyText(reply, show))]
  }

  /** The history the panel sends: every message before this one, role and
      content. */
  function HistoryOf(messages: seq<Entry>): (h: seq<R.ChatMessage>)
    ensures |h| == |messages| && forall i :: 0 <= i < |h| ==> h[i] == R.ChatMessage(messages[i].role, messages[i].content)
  {
    seq(|messages|, i requires 0 <= i < |messages| => R.ChatMessage(messages[i].role, messages[i].content))
  }

  /** The panel's state. */
  class ChatView {
    var messages: seq<Entry>
    var input: string
    var isLoading: bool

    constructor(greeting: string)
      ensures messages == [Entry("assistant", greeting)] && input == "" && !isLoading
    {
      messages := [Entry("assistant", greeting)];
      input := "";
      isLoading := false;
    }

    /** handleSubmit. Returns what was sent (the trimmed message and the
        history before it), or None when the guard refused. */
    method HandleSubmit(reply: Reply, show: real -> string) returns (sent: Option<(string, seq<R.ChatMessage>)>)
      modifies this
      ensures !CanSubmit(old(input), old(isLoading)) ==>
        sent.None? && messages == old(messages) && input == old(input) && isLoading == old(isLoading)
      ensures CanSubmit(old(input), old(isLoading)) ==>
        sent == Some((Trim(old(input)), HistoryOf(old(messages))))
        && messages == old(messages) + [Entry("user", Trim(old(input)))] + ReplyEntries(reply, show)
        && input == "" && !isLoading
    {
      if Trim(input) == "" || isLoading {
        return None;
      }
      var userMessage := Trim(input);
      input := "";
      var history := HistoryOf(messages);
      messages := messages + [Entry("user", userMessage)];
      isLoading := true;
      sent := Some((userMessage, history));
      match reply {
        case Streamed(received) =>
          AppendStreamed(received);
        case StreamFailed(received) =>
          AppendStreamed(received);
          messages := messages + [Entry("assistant", ErrorApology)];
        case Resolved(data) =>
          if Throws(data) {
            messages := messages + [Entry("assistant", ErrorApology)];
          } else {
            messages := messages + [Entry("assistant", ResolvedText(data, show))];
          }
        case Rejected =>
          messages := messages + [Entry("assistant", ErrorApology)];
      }
      isLoading := false;
    }

    /** The streaming branch: an empty assistant message, then each read
        in turn. */
    method AppendStreamed(received: seq<string>)
      modifies this
      ensures messages == old(messages) + [Entry("assistant", Accumulated(received))]
      ensures input == old(input) && isLoading == old(isLoading)
    {
      var base := messages;
      var assistantMessage := "";
      messages := messages + [Entry("assistant", "")];
      var i := 0;
      while i < |received|
        invariant 0 <= i <= |received|
        invariant assistantMessage == Accumulated(received[..i])
        invariant messages == base + [Entry("assistant", assistantMessage)]
        invariant input == old(input) && isLoading == old(isLoading)
      {
        assistantMessage := ApplyRead(base, assistantMessage, received[i]);
        assert received[..i + 1][..i] == received[..i];
        i := i + 1;
      }
      assert received[..|received|] == received;
    }

    /** One read: every `data: ` line extends the answer and replaces the
        last message with it. */
    method ApplyRead(base: seq<Entry>, acc: string, chunk: string) returns (assistantMessage: string)
      requires messages == base + [Entry("assistant", acc)]
      modifies this
      ensures assistantMessage == acc + ReadText(chunk)
      ensures messages == base + [Entry("assistant", assistantMessage)]
      ensures input == old(input) && isLoading == old(isLoading)
    {
      assistantMessage := acc;
      var lines := Split(chunk, '\n');
      for j := 0 to |lines|
        invariant assistantMessage == acc + DataText(lines[..j])
        invariant messages == base + [Entry("assistant", assistantMessage)]
        invariant input == old(input) && isLoading == old(isLoading)
      {
        DataTextAppend(lines[..j], lines[j]);
        assert lines[..j + 1] == lines[..j] + [lines[j]];
        var line := lines[j];
        if StartsWith(line, "data: ") {
          assistantMessage := assistantMessage + line[6..];
          messages := messages[|messages| - 1 := Entry("assistant", assistantMessage)];
        }
      }
      assert lines[..|lines|] == lines;
    }
  }

  /** The concatenation of the chunks. */
  function Concat(chunks: seq<string>): string
  {
    if |chunks| == 0 then "" else chunks[0] + Concat(chunks[1..])
  }

  predicate NoNewline(chunks: seq<string>)
  {
    forall k, j :: 0 <= k < |chunks| && 0 <= j < |chunks[k]| ==> chunks[k][j] != '\n'
  }

  /** The lines of a sequence of frames: a data line and a blank line per
      frame, then the empty remainder. */
  lemma FramesLines(chunks: seq<string>)
    requires |chunks| > 0 && NoNewline(chunks)
    ensures Split(R.Frames(chunks), '\n') == ["data: " + chunks[0], ""] + Split(R.Frames(chunks[1..]), '\n')
  {
    var c := chunks[0];
    assert forall j :: 0 <= j < |c| ==> c[j] != '\n';
    FrameLines(c, R.Frames(chunks[1..]));
  }

  /** One frame in front of `rest` adds its data line and a blank line. */
  lemma FrameLines(c: string, rest: string)
    requires forall j :: 0 <= j < |c| ==> c[j] != '\n'
    ensures Split(R.Frame(c) + rest, '\n') == ["data: " + c, ""] + Split(rest, '\n')
  {
    var p := "data: " + c;
    forall j | 0 <= j < |p| ensures p[j] != '\n' {
      if j >= 6 {
        assert p[j] == c[j - 6];
      } else {
        assert p[j] == "data: "[j];
      }
    }
    var t := [] + ['\n'] + rest;
    assert R.Frame(c) + rest == p + ['\n'] + t;
    SplitPrefix(p, t, '\n');
    SplitPrefix([], rest, '\n');
  }

  /** A frame's data line and blank line contribute the frame's chunk. */
  lemma FrameData(c: string, tail: seq<string>)
    ensures DataText(["data: " + c, ""] + tail) == c + DataText(tail)
  {
    var lines := ["data: " + c, ""] + tail;
    assert lines[1..] == [""] + tail;
    assert ([""] + tail)[1..] == tail;
    assert LineData("data: " + c) == c;
    assert DataText([""] + tail) == LineData("") + DataText(tail);
  }

  /** Dropping the first chunk keeps the chunks free of newlines. */
  lemma NoNewlineTail(chunks: seq<string>)
    requires |chunks| > 0 && NoNewline(chunks)
    ensures NoNewline(chunks[1..])
  {
    forall k, j | 0 <= k < |chunks[1..]| && 0 <= j < |chunks[1..][k]| ensures chunks[1..][k][j] != '\n' {
      assert chunks[1..][k] == chunks[k + 1];
    }
  }

  /** A read made of whole frames gives back its chunks. */
  lemma {:induction false} ReadOfFrames(chunks: seq<string>)
    requires NoNewline(chunks)
    ensures ReadText(R.Frames(chunks)) == Concat(chunks)
  {
    if |chunks| == 0 {
      assert Split("", '\n') == [""];
      assert DataText([""]) == LineData("") + DataText([]);
    } else {
      NoNewlineTail(chunks);
      ReadOfFrames(chunks[1..]);
      FramesLines(chunks);
      FrameData(chunks[0], Split(R.Frames(chunks[1..]), '\n'));
    }
  }

  lemma {:induction false} ConcatAppend(a: seq<string>, b: seq<string>)
    ensures Concat(a + b) == Concat(a) + Concat(b)
  {
    if |a| == 0 {
      assert a + b == b;
    } else {
      assert (a + b)[1..] == a[1..] + b;
      ConcatAppend(a[1..], b);
    }
  }

  /** Flattening groups of chunks. */
  function Flatten(groups: seq<seq<string>>): seq<string>
  {
    if |groups| == 0 then [] else Flatten(groups[..|groups| - 1]) + groups[|groups| - 1]
  }

  /** Round trip between the server's framing and the panel's reader: when
      every read delivers whole frames and no chunk holds a newline, the
      answer the panel shows is the concatenation of the streamed chunks. */
  lemma {:induction false} StreamRoundTrip(groups: seq<seq<string>>, received: seq<string>)
    requires |received| == |groups|
    requires forall i :: 0 <= i < |received| ==> received[i] == R.Frames(groups[i]) && NoNewline(groups[i])
    ensures Accumulated(received) == Concat(Flatten(groups))
  {
    if |received| > 0 {
      var n := |received| - 1;
      StreamRoundTrip(groups[..n], received[..n]);
      ReadOfFrames(groups[n]);
      ConcatAppend(Flatten(groups[..n]), groups[n]);
    }
  }

  /** What the backend received from a chat body: the `history` field as a
      list of role/content messages, None when absent or null. */
  function ReceivedHistory(body: A.Json): Option<seq<R.ChatMessage>>
  {
    var h := A.Field(body, "history");
    if h.Some? && h.value.JArr? && forall i :: 0 <= i < |h.value.items| ==> MessageJson(h.value.items[i]).Some? then
      var items := h.value.items;
      Some(seq(|items|, i requires 0 <= i < |items| && MessageJson(items[i]).Some? => MessageJson(items[i]).value))
    else None
  }

  function MessageJson(j: A.Json): Option<R.ChatMessage>
  {
    var role := A.Field(j, "role");
    var content := A.Field(j, "content");
    if role.Some? && role.value.JStr? && content.Some? && content.value.JStr? then
      Some(R.ChatMessage(role.value.s, content.value.s))
    else None
  }

  function ToJson(m: R.ChatMessage): A.Json
  {
    A.JObj([("role", A.JStr(m.role)), ("content", A.JStr(m.content))])
  }

  lemma ToJsonRoundTrip(m: R.ChatMessage)
    ensures MessageJson(ToJson(m)) == Some(m)
  {
    var fields := [("role", A.JStr(m.role)), ("content", A.JStr(m.content))];
    assert fields[1..] == [("content", A.JStr(m.content))];
    assert "role"[0] != "content"[0];
    assert A.FieldIn(fields, "content") == A.FieldIn(fields[1..], "content");
  }

  /** The body the panel posts as written: `api.agent.chat(message,
      history)` puts the history under `stock_code`. */
  function ChatBodyAsWritten(message: string, history: seq<R.ChatMessage>): A.Json
  {
    A.ChatBody(message, Some(A.JArr(seq(|history|, i requires 0 <= i < |history| => ToJson(history[i])))))
  }

  /** The backend never sees the conversation: whatever the history, the
      agent gets only the new message. */
  lemma HistoryNeverArrives(message: string, history: seq<R.ChatMessage>)
    ensures ReceivedHistory(ChatBodyAsWritten(message, history)) == None
    ensures R.FormatHistory(ReceivedHistory(ChatBodyAsWritten(message, history))) == None
  {
  }

  /** The body with the history where ChatRequest expects it. */
  function IntendedChatBody(message: string, history: seq<R.ChatMessage>): (j: A.Json)
    ensures A.Field(j, "message") == Some(A.JStr(message))
  {
    A.JObj([("message", A.JStr(message)), ("history", A.JArr(seq(|history|, i requires 0 <= i < |history| => ToJson(history[i]))))])
  }

  /** With the intended body the backend received back exactly the history
      sent. */
  lemma IntendedHistoryArrives(message: string, history: seq<R.ChatMessage>)
    ensures ReceivedHistory(IntendedChatBody(message, history)) == Some(history)
  {
    var items := seq(|history|, i requires 0 <= i < |history| => ToJson(history[i]));
    var fields := [("message", A.JStr(message)), ("history", A.JArr(items))];
    assert fields[1..] == [("history", A.JArr(items))];
    assert "message"[0] != "history"[0];
    assert A.FieldIn(fields, "history") == A.FieldIn(fields[1..], "history") == Some(A.JArr(items));
    forall i | 0 <= i < |items| ensures MessageJson(items[i]) == Some(history[i]) {
      ToJsonRoundTrip(history[i]);
    }
    assert seq(|items|, i requires 0 <= i < |items| && MessageJson(items[i]).Some? => MessageJson(items[i]).value) == history;
  }

  /** The first character a JSON text can start with after whitespace
      (section 2 of RFC 8259). */
  predicate JsonStart(c: char)
  {
    c in "{[\"-0123456789tfn"
  }

  predicate IsJsonSpace(c: char)
  {
    c in " \t\n\r"
  }

  /** A body that can be JSON: its first non-whitespace character can start
      a JSON value. */
  predicate CouldBeJson(text: string)
  {
    var k := LeadingSpaces(text, IsJsonSpace);
    k < |text| && JsonStart(text[k])
  }

  /** How the panel's chat call ends as written: `request` parses the
      streamed body as JSON; `parse` is the browser's parser, which rejects
      any text that cannot start a JSON value. */
  function ChatReplyAsWritten(body: string, parse: string -> Option<A.Json>, show: real -> string): Reply
  {
    match A.Request(A.Response(true, 200, parse(body)), show)
    case Ok(data) => Resolved(data)
    case Err(_) => Rejected
  }

  /** Every streamed answer ends as the error apology: the event stream
      starts with `data: `, which no JSON parser accepts. */
  lemma StreamedChatShowsApology(chunks: seq<string>, parse: string -> Option<A.Json>, show: real -> string)
    requires |chunks| > 0
    requires forall t :: !CouldBeJson(t) ==> parse(t).None?
    ensures ChatReplyAsWritten(R.Frames(chunks), parse, show) == Rejected
    ensures ReplyText(ChatReplyAsWritten(R.Frames(chunks), parse, show), show) == ErrorApology
  {
    var body := R.Frames(chunks);
    FramesStartWithData(chunks);
    DataIsNotJson(body);
    assert parse(body).None?;
  }

  /** The event stream of at least one chunk starts with the letter `d`. */
  lemma FramesStartWithData(chunks: seq<string>)
    requires |chunks| > 0
    ensures |R.Frames(chunks)| > 0 && R.Frames(chunks)[0] == 'd'
  {
    var f := R.Frame(chunks[0]);
    assert f[..6] == "data: ";
    assert f[0] == f[..6][0];
    assert R.Frames(chunks) == f + R.Frames(chunks[1..]);
  }

  /** A text starting with `d` cannot be JSON. */
  lemma DataIsNotJson(text: string)
    requires |text| > 0 && text[0] == 'd'
    ensures !CouldBeJson(text)
  {
    assert !IsJsonSpace(text[0]);
    assert LeadingSpaces(text, IsJsonSpace) == 0;
    assert !JsonStart(text[0]);
  }

  /** Reading the response body as a stream instead: the panel shows the
      streamed chunks. */
  function ChatReplyIntended(received: seq<string>): (r: Reply)
    ensures r.Streamed? && r.received == received
  {
    Streamed(received)
  }

  lemma IntendedChatShowsAnswer(groups: seq<seq<string>>, received: seq<string>, show: real -> string)
    requires |received| == |groups|
    requires forall i :: 0 <= i < |received| ==> received[i] == R.Frames(groups[i]) && NoNewline(groups[i])
    ensures ReplyText(ChatReplyIntended(received), show) == Concat(Flatten(groups))
  {
    StreamRoundTrip(groups, received);
  }
}
