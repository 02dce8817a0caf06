/**
  Messages and the shape every provider demands of a transcript: each assistant tool call is
  answered by exactly one tool result, in call order, before any other message.
 */
module Transcript {
  import opened Options

  datatype Role = System | User | Assistant | Tool

  /** `arguments` is the JSON text of the call's arguments. */
  datatype ToolCall = ToolCall(callId: string, name: string, arguments: string)

  datatype Part = Text(text: string) | Image

  datatype Message = Message(
    role: Role,
    content: Option<string>,
    parts: seq<Part>,
    toolCalls: seq<ToolCall>,
    toolCallId: Option<string>,
    name: Option<string>)

  function TextMessage(role: Role, content: string): Message {
    Message(role, Some(content), [], [], None, None)
  }

  function ToolResultMessage(call: ToolCall, content: string, parts: seq<Part>): Message {
    Message(Tool, Some(content), parts, [], Some(call.callId), Some(call.name))
  }

  predicate HasCalls(m: Message) {
    m.role == Assistant && m.toolCalls != []
  }

  /** `results` answers `calls` one by one. */
  ghost predicate Answers(calls: seq<ToolCall>, results: seq<Message>) {
    && |results| == |calls|
    && forall i :: 0 <= i < |calls| ==>
      results[i].role == Tool && results[i].toolCallId == Some(calls[i].callId)
  }

  /** The length of the exchange that starts a history: a message and the results it asks for. */
  function ExchangeLength(m: Message): nat {
    1 + if HasCalls(m) then |m.toolCalls| else 0
  }

  /** One message together with the results it asks for. */
  ghost predicate Exchange(e: seq<Message>) {
    && e != [] && e[0].role != Tool && |e| == ExchangeLength(e[0])
    && (HasCalls(e[0]) ==> Answers(e[0].toolCalls, e[1..]))
  }

  ghost predicate WellFormed(history: seq<Message>)
    decreases |history|
  {
    history == []
    || var n := ExchangeLength(history[0]);
       n <= |history| && Exchange(history[..n]) && WellFormed(history[n..])
  }

  /** After a well-formed transcript, a continuation is well-formed exactly when it is so by itself. */
  lemma {:induction false} WellFormedConcat(p: seq<Message>, q: seq<Message>)
    requires WellFormed(p)
    ensures WellFormed(p + q) <==> WellFormed(q)
    decreases |p|
  {
    hide Exchange;
    if p == [] {
      assert p + q == q;
    } else {
      var n := ExchangeLength(p[0]);
      assert (p + q)[..n] == p[..n];
      assert (p + q)[n..] == p[n..] + q;
      WellFormedConcat(p[n..], q);
    }
  }

  lemma ExchangeIsWellFormed(e: seq<Message>)
    requires Exchange(e)
    ensures WellFormed(e)
  {
    assert e[..|e|] == e && e[|e|..] == [];
  }

  /** A message that neither is a result nor asks for any may follow anything and precede anything. */
  lemma PlainMessage(p: seq<Message>, m: Message)
    requires WellFormed(p) && m.role != Tool && !HasCalls(m)
    ensures WellFormed(p + [m]) && WellFormed([m] + p)
  {
    ExchangeIsWellFormed([m]);
    WellFormedConcat(p, [m]);
    WellFormedConcat([m], p);
  }

  lemma AnsweredCalls(p: seq<Message>, m: Message, results: seq<Message>)
    requires WellFormed(p) && HasCalls(m) && Answers(m.toolCalls, results)
    ensures WellFormed(p + [m] + results)
  {
    assert ([m] + results)[1..] == results;
    ExchangeIsWellFormed([m] + results);
    WellFormedConcat(p, [m] + results);
    assert p + [m] + results == p + ([m] + results);
  }

  /** Messages that neither are results nor ask for any: what steers and system messages are. */
  ghost predicate Plain(messages: seq<Message>) {
    forall i :: 0 <= i < |messages| ==> messages[i].role != Tool && !HasCalls(messages[i])
  }

  lemma {:induction false} PlainIsWellFormed(messages: seq<Message>)
    requires Plain(messages)
    ensures WellFormed(messages)
  {
    if messages != [] {
      PlainIsWellFormed(messages[1..]);
      PlainMessage(messages[1..], messages[0]);
      assert messages == [messages[0]] + messages[1..];
    }
  }
}
