/**
  Forking a transcript in the middle of a tool batch: the snapshot ends with unanswered calls,
  and closing them makes it a transcript a provider accepts.
 */
module ForkedTranscript {
  import opened Basics
  import opened Options
  import opened Transcript

  const UNAVAILABLE := "result unavailable — the context forked while this call was in flight"

  /** The call ids that some result in the history names. */
  function AnsweredIds(history: seq<Message>): set<string> {
    set i | 0 <= i < |history| && history[i].role == Tool && history[i].toolCallId.Some? :: history[i].toolCallId.value
  }

  function OpenIn(calls: seq<ToolCall>, answered: set<string>): seq<string> {
    if calls == [] then []
    else (if calls[0].callId in answered then [] else [calls[0].callId]) + OpenIn(calls[1..], answered)
  }

  /** The ids of the assistant calls without a result, in call order. */
  function OpenCalls(history: seq<Message>, answered: set<string>): seq<string> {
    if history == [] then []
    else
      (if history[0].role == Assistant then OpenIn(history[0].toolCalls, answered) else [])
      + OpenCalls(history[1..], answered)
  }

  function Closure(callId: string): Message {
    TextMessage(Tool, UNAVAILABLE).(toolCallId := Some(callId))
  }

  function Closures(callIds: seq<string>): (r: seq<Message>)
    ensures |r| == |callIds|
    ensures forall i :: 0 <= i < |r| ==> r[i] == Closure(callIds[i])
  {
    if callIds == [] then [] else [Closure(callIds[0])] + Closures(callIds[1..])
  }

  function Closed(history: seq<Message>): seq<Message> {
    history + Closures(OpenCalls(history, AnsweredIds(history)))
  }

  method PendingIn(calls: seq<ToolCall>, answered: set<string>) returns (pending: seq<string>)
    ensures pending == OpenIn(calls, answered)
  {
    pending := [];
    for j := 0 to |calls|
      invariant pending + OpenIn(calls[j..], answered) == OpenIn(calls, answered)
    {
      assert calls[j..][1..] == calls[j + 1..];
      if calls[j].callId !in answered {
        pending := pending + [calls[j].callId];
      }
    }
  }

  method PendingCalls(history: seq<Message>, answered: set<string>) returns (pending: seq<string>)
    ensures pending == OpenCalls(history, answered)
  {
    hide OpenIn, OpenCalls;
    pending := [];
    NothingIsOpen(answered);
    assert history[0..] == history;
    for i := 0 to |history|
      invariant pending + OpenCalls(history[i..], answered) == OpenCalls(history, answered)
    {
      FirstOpen(history, i, answered);
      if history[i].role == Assistant {
        var more := PendingIn(history[i].toolCalls, answered);
        Associative(pending, more, OpenCalls(history[i + 1..], answered));
        pending := pending + more;
      }
    }
    assert history[|history|..] == [];
  }

  lemma NothingIsOpen(answered: set<string>)
    ensures OpenCalls([], answered) == []
  {
  }

  lemma FirstOpen(history: seq<Message>, i: nat, answered: set<string>)
    requires i < |history|
    ensures OpenCalls(history[i..], answered) ==
      (if history[i].role == Assistant then OpenIn(history[i].toolCalls, answered) else [])
      + OpenCalls(history[i + 1..], answered)
  {
    hide OpenIn;
    assert history[i..][1..] == history[i + 1..];
  }

  method CloseOpenToolCalls(history: seq<Message>) returns (closed: seq<Message>)
    ensures closed == Closed(history) && history <= closed
    ensures forall i :: |history| <= i < |closed| ==>
      && closed[i].role == Tool && closed[i].toolCallId.Some?
      && closed[i].content == Some("result unavailable — the context forked while this call was in flight")
  {
    hide OpenCalls, AnsweredIds, Closures;
    var pending := PendingCalls(history, AnsweredIds(history));
    closed := history;
    for i := 0 to |pending|
      invariant closed == history + Closures(pending)[..i]
    {
      closed := closed + [Closure(pending[i])];
    }
    assert Closures(pending)[..|pending|] == Closures(pending);
  }

  lemma {:induction false} OpenInBounds(calls: seq<ToolCall>, answered: set<string>)
    ensures |OpenIn(calls, answered)| <= |calls|
    ensures |OpenIn(calls, answered)| == |calls| <==> forall i :: 0 <= i < |calls| ==> calls[i].callId !in answered
    ensures |OpenIn(calls, answered)| == |calls| ==>
      forall i :: 0 <= i < |calls| ==> OpenIn(calls, answered)[i] == calls[i].callId
    ensures forall id :: id in OpenIn(calls, answered) ==> exists i :: 0 <= i < |calls| && calls[i].callId == id
    ensures (forall i :: 0 <= i < |calls| ==> calls[i].callId in answered) ==> OpenIn(calls, answered) == []
  {
    if calls != [] {
      OpenInBounds(calls[1..], answered);
      assert forall i :: 1 <= i < |calls| ==> calls[i] == calls[1..][i - 1];
    }
  }

  lemma {:induction false} OpenCallsConcat(p: seq<Message>, q: seq<Message>, answered: set<string>)
    ensures OpenCalls(p + q, answered) == OpenCalls(p, answered) + OpenCalls(q, answered)
  {
    if p == [] {
      assert p + q == q;
    } else {
      assert (p + q)[0] == p[0] && (p + q)[1..] == p[1..] + q;
      OpenCallsConcat(p[1..], q, answered);
    }
  }

  /** Every call of a well-formed transcript is answered in it. */
  lemma {:induction false} NothingOpen(p: seq<Message>, answered: set<string>)
    requires WellFormed(p) && AnsweredIds(p) <= answered
    ensures OpenCalls(p, answered) == []
    decreases |p|
  {
    if p != [] {
      var n := ExchangeLength(p[0]);
      var e := p[..n];
      assert p == e + p[n..];
      OpenCallsConcat(e, p[n..], answered);
      forall id | id in AnsweredIds(p[n..])
        ensures id in AnsweredIds(p)
      {
        var i :| 0 <= i < |p[n..]| && p[n..][i].role == Tool && p[n..][i].toolCallId == Some(id);
        assert p[n + i] == p[n..][i];
      }
      NothingOpen(p[n..], answered);
      ExchangeAnswered(e, p, answered);
    }
  }

  lemma ExchangeAnswered(e: seq<Message>, p: seq<Message>, answered: set<string>)
    requires Exchange(e) && e <= p && AnsweredIds(p) <= answered
    ensures OpenCalls(e, answered) == []
  {
    if HasCalls(e[0]) {
      var calls := e[0].toolCalls;
      forall i | 0 <= i < |calls|
        ensures calls[i].callId in answered
      {
        assert e[1..][i] == p[1 + i];
        assert calls[i].callId in AnsweredIds(p);
      }
    }
    OpenInBounds(e[0].toolCalls, answered);
    assert forall i :: 0 <= i < |e[1..]| ==> e[1..][i].role == Tool;
    ResultsOpenNothing(e[1..], answered);
  }

  lemma {:induction false} ResultsOpenNothing(results: seq<Message>, answered: set<string>)
    requires forall i :: 0 <= i < |results| ==> results[i].role == Tool
    ensures OpenCalls(results, answered) == []
  {
    if results != [] {
      ResultsOpenNothing(results[1..], answered);
    }
  }

  /** What a snapshot taken right after an assistant message with calls leaves open. */
  lemma SnapshotOpenCalls(p: seq<Message>, m: Message)
    requires WellFormed(p) && HasCalls(m)
    ensures AnsweredIds(p + [m]) == AnsweredIds(p)
    ensures OpenCalls(p + [m], AnsweredIds(p + [m])) == OpenIn(m.toolCalls, AnsweredIds(p))
  {
    var h := p + [m];
    forall id
      ensures id in AnsweredIds(h) <==> id in AnsweredIds(p)
    {
      if id in AnsweredIds(p) {
        var i :| 0 <= i < |p| && p[i].role == Tool && p[i].toolCallId == Some(id);
        assert h[i] == p[i];
      }
    }
    NothingOpen(p, AnsweredIds(p));
    OpenCallsConcat(p, [m], AnsweredIds(p));
    assert [m][1..] == [];
  }

  /**
    The closed snapshot is a well-formed transcript exactly when no open call reuses the id of a
    call that already has a result.
   */
  lemma ForkIsClosedExactly(p: seq<Message>, m: Message)
    requires WellFormed(p) && HasCalls(m)
    ensures WellFormed(Closed(p + [m]))
       <==> forall i :: 0 <= i < |m.toolCalls| ==> m.toolCalls[i].callId !in AnsweredIds(p)
  {
    hide WellFormed, OpenIn, AnsweredIds, OpenCalls;
    SnapshotOpenCalls(p, m);
    var open := OpenIn(m.toolCalls, AnsweredIds(p));
    OpenInBounds(m.toolCalls, AnsweredIds(p));
    var closures := Closures(open);
    WellFormedConcat(p, [m] + closures);
    assert Closed(p + [m]) == p + ([m] + closures);
    if |open| == |m.toolCalls| {
      AnsweredCalls(p, m, closures);
      assert p + [m] + closures == p + ([m] + closures);
    } else {
      TooFewResults(m, closures);
    }
  }

  lemma TooFewResults(m: Message, results: seq<Message>)
    requires HasCalls(m) && |results| < |m.toolCalls|
    ensures !WellFormed([m] + results)
  {
  }

  /** Closing closes everything: a second pass appends nothing. */
  lemma ClosingIsIdempotent(history: seq<Message>)
    ensures Closed(Closed(history)) == Closed(history)
  {
    var answered := AnsweredIds(history);
    var open := OpenCalls(history, answered);
    var closed := Closed(history);
    var now := AnsweredIds(closed);
    forall id | id in answered
      ensures id in now
    {
      var i :| 0 <= i < |history| && history[i].role == Tool && history[i].toolCallId == Some(id);
      assert closed[i] == history[i];
    }
    forall id | id in open
      ensures id in now
    {
      var i :| 0 <= i < |open| && open[i] == id;
      assert closed[|history| + i] == Closure(id);
    }
    OpenCallsConcat(history, Closures(open), now);
    ResultsOpenNothing(Closures(open), now);
    MoreAnswers(history, answered, now);
  }

  /** Answering all the open calls leaves none open. */
  lemma {:induction false} MoreAnswers(history: seq<Message>, answered: set<string>, now: set<string>)
    requires answered <= now
    requires forall id :: id in OpenCalls(history, answered) ==> id in now
    ensures OpenCalls(history, now) == []
  {
    if history != [] {
      MoreAnswers(history[1..], answered, now);
      if history[0].role == Assistant {
        MoreAnswersIn(history[0].toolCalls, answered, now);
      }
    }
  }

  lemma {:induction false} MoreAnswersIn(calls: seq<ToolCall>, answered: set<string>, now: set<string>)
    requires answered <= now
    requires forall id :: id in OpenIn(calls, answered) ==> id in now
    ensures OpenIn(calls, now) == []
  {
    if calls != [] {
      MoreAnswersIn(calls[1..], answered, now);
    }
  }

  // ----- call ids

  function CallIds(history: seq<Message>): seq<string> {
    OpenCalls(history, {})
  }

  lemma CallIdsConcat(p: seq<Message>, q: seq<Message>)
    ensures CallIds(p + q) == CallIds(p) + CallIds(q)
  {
    OpenCallsConcat(p, q, {});
  }

  /** A result of a well-formed transcript names one of its calls. */
  lemma {:induction false} ResultsNameCalls(p: seq<Message>)
    requires WellFormed(p)
    ensures forall id :: id in AnsweredIds(p) ==> id in CallIds(p)
    decreases |p|
  {
    hide CallIds, Exchange, AnsweredIds;
    if p == [] {
      NothingAnswered();
    } else {
      var n := ExchangeLength(p[0]);
      ResultsNameCalls(p[n..]);
      ExchangeNamesCalls(p[..n]);
      CallIdsConcat(p[..n], p[n..]);
      AnsweredConcat(p[..n], p[n..]);
      assert p == p[..n] + p[n..];
    }
  }

  lemma NothingAnswered()
    ensures AnsweredIds([]) == {}
  {
  }

  lemma AnsweredConcat(p: seq<Message>, q: seq<Message>)
    ensures AnsweredIds(p + q) == AnsweredIds(p) + AnsweredIds(q)
  {
    var all := p + q;
    forall id
      ensures id in AnsweredIds(all) <==> id in AnsweredIds(p) || id in AnsweredIds(q)
    {
      if id in AnsweredIds(p) {
        var i :| 0 <= i < |p| && p[i].role == Tool && p[i].toolCallId == Some(id);
        assert all[i] == p[i];
      }
      if id in AnsweredIds(q) {
        var i :| 0 <= i < |q| && q[i].role == Tool && q[i].toolCallId == Some(id);
        assert all[|p| + i] == q[i];
      }
    }
  }

  lemma ExchangeNamesCalls(e: seq<Message>)
    requires Exchange(e)
    ensures forall id :: id in AnsweredIds(e) ==> id in CallIds(e)
  {
    hide CallIds, Exchange;
    forall id | id in AnsweredIds(e)
      ensures id in CallIds(e)
    {
      var i :| 0 <= i < |e| && e[i].role == Tool && e[i].toolCallId == Some(id);
      ResultOfExchange(e, i);
    }
  }

  lemma ResultOfExchange(e: seq<Message>, i: int)
    requires Exchange(e) && 0 <= i < |e| && e[i].role == Tool && e[i].toolCallId.Some?
    ensures e[i].toolCallId.value in CallIds(e)
  {
    var calls := e[0].toolCalls;
    assert e[i] == e[1..][i - 1];
    OpenInBounds(calls, {});
    assert OpenIn(calls, {})[i - 1] == calls[i - 1].callId;
    assert OpenIn(calls, {})[i - 1] in CallIds(e);
  }

  lemma DistinctParts(p: seq<string>, q: seq<string>, id: string)
    requires Distinct(p + q) && id in q
    ensures id !in p
  {
    var j :| 0 <= j < |q| && q[j] == id;
    forall i | 0 <= i < |p|
      ensures p[i] != id
    {
      assert (p + q)[i] != (p + q)[|p| + j];
    }
  }

  /** Call ids that are unique across the history are enough. */
  lemma UniqueIdsClose(p: seq<Message>, m: Message)
    requires WellFormed(p) && HasCalls(m) && Distinct(CallIds(p + [m]))
    ensures WellFormed(Closed(p + [m]))
  {
    ResultsNameCalls(p);
    OpenCallsConcat(p, [m], {});
    OpenInBounds(m.toolCalls, {});
    assert OpenCalls([m], {}) == OpenIn(m.toolCalls, {}) by { assert [m][1..] == []; }
    forall i | 0 <= i < |m.toolCalls|
      ensures m.toolCalls[i].callId !in AnsweredIds(p)
    {
      assert OpenIn(m.toolCalls, {})[i] == m.toolCalls[i].callId;
      DistinctParts(CallIds(p), OpenIn(m.toolCalls, {}), m.toolCalls[i].callId);
    }
    ForkIsClosedExactly(p, m);
  }

  /** A driver that numbers its calls from 1 in every stream breaks the closing in its second turn. */
  lemma RestartedNumbering(user: Message, answer: string)
    requires user.role == User
    ensures var call := ToolCall("gemini-call-1", "read_file", "{}");
      var turn := Message(Assistant, None, [], [call], None, None);
      var p := [user, turn, ToolResultMessage(call, answer, [])];
      WellFormed(p) && !WellFormed(Closed(p + [turn]))
  {
    var call := ToolCall("gemini-call-1", "read_file", "{}");
    var turn := Message(Assistant, None, [], [call], None, None);
    var result := ToolResultMessage(call, answer, []);
    PlainMessage([], user);
    assert [] + [user] == [user];
    AnsweredCalls([user], turn, [result]);
    var p := [user, turn, result];
    assert [user] + [turn] + [result] == p;
    assert p[2].role == Tool && p[2].toolCallId == Some(call.callId);
    assert call.callId in AnsweredIds(p);
    assert turn.toolCalls[0].callId in AnsweredIds(p);
    ForkIsClosedExactly(p, turn);
  }

  // ----- the child's start

  /** The child's persona goes in front of the parent's leading system message, or becomes one. */
  function FoldPersona(history: seq<Message>, prompt: string): seq<Message> {
    if history != [] && history[0].role == System then
      var parent := match history[0].content case None => "" case Some(text) => text;
      [history[0].(content := Some(prompt + "\n\n[Parent instructions]\n" + parent))] + history[1..]
    else
      [TextMessage(System, prompt)] + history
  }

  /** The full-context fork starts the child on a well-formed transcript: a system message that starts
      with its persona and ends with what the parent was told, and behind it the closed snapshot. */
  lemma ForkSeedWellFormed(p: seq<Message>, m: Message, prompt: string)
    requires WellFormed(p) && HasCalls(m)
    requires forall i :: 0 <= i < |m.toolCalls| ==> m.toolCalls[i].callId !in AnsweredIds(p)
    ensures WellFormed(FoldPersona(Closed(p + [m]), prompt))
    ensures var (closed, seed) := (Closed(p + [m]), FoldPersona(Closed(p + [m]), prompt));
      && seed != [] && seed[0].role == System && seed[0].content.Some?
      && if closed[0].role == System
         then seed[1..] == closed[1..] && seed[0].content.value == prompt + "\n\n[Parent instructions]\n"
           + match closed[0].content case None => "" case Some(text) => text
         else seed[1..] == closed && seed[0].content.value == prompt
  {
    ForkIsClosedExactly(p, m);
    var h := Closed(p + [m]);
    if h[0].role == System {
      assert ExchangeLength(h[0]) == 1;
      PlainMessage(h[1..], FoldPersona(h, prompt)[0]);
    } else {
      PlainMessage(h, TextMessage(System, prompt));
    }
  }
}
