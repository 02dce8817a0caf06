/**
  What a whole log replays to, user items in the middle of a batch included, and when that is a
  well-formed transcript.
 */
module RunReplay {
  import opened Basics
  import opened Options
  import opened Transcript
  import opened Journal
  import opened Protocol
  import opened HistoryRebuild
  import opened ToolBatch
  import opened BatchReplay

  // ----- results that are due

  /** How many results are due after `m`, of `n` before it; user messages may come in between. */
  function Owe(n: nat, m: Message): Option<nat> {
    if m.role == User || m.role == System then Some(n)
    else if m.role == Assistant then if n == 0 then Some(|m.toolCalls|) else None
    else if n == 0 then None else Some(n - 1)
  }

  function OwedFrom(n: nat, messages: seq<Message>): Option<nat>
    decreases |messages|
  {
    if messages == [] then Some(n)
    else match Owe(n, messages[0]) case None => None case Some(k) => OwedFrom(k, messages[1..])
  }

  /** Every call has as many results as it should, wherever user messages are. */
  ghost predicate Settled(log: seq<Effect>) {
    OwedFrom(0, Replay(log)) == Some(0)
  }

  lemma {:induction false} OwedConcat(n: nat, p: seq<Message>, q: seq<Message>)
    ensures OwedFrom(n, p + q) == match OwedFrom(n, p) case None => None case Some(k) => OwedFrom(k, q)
    decreases |p|
  {
    hide Owe;
    if p == [] {
      assert p + q == q;
    } else {
      assert (p + q)[0] == p[0] && (p + q)[1..] == p[1..] + q;
      if Owe(n, p[0]).Some? {
        OwedConcat(Owe(n, p[0]).value, p[1..], q);
      }
    }
  }

  lemma {:induction false} ResultsPay(results: seq<Message>)
    requires forall i :: 0 <= i < |results| ==> results[i].role == Tool
    ensures OwedFrom(|results|, results) == Some(0)
  {
    if results != [] {
      ResultsPay(results[1..]);
    }
  }

  lemma SettledNothing()
    ensures Settled([])
  {
  }

  lemma SettledConcat(p: seq<Effect>, q: seq<Effect>)
    requires Settled(p) && Settled(q)
    ensures Settled(p + q)
  {
    hide Replay, OwedFrom;
    ReadConcat(p, q);
    OwedConcat(0, Replay(p), Replay(q));
  }

  lemma {:induction false} OwedOnce(n: nat, messages: seq<Message>)
    requires OwedFrom(n, messages) == Some(0) == OwedFrom(0, messages)
    ensures n == 0
    decreases |messages|
  {
    if messages != [] && Owe(0, messages[0]) == Some(0) {
      OwedOnce(n, messages[1..]);
    }
  }

  /** Of two parts with nothing due in the end, both have nothing due or neither. */
  lemma SettledSplit(p: seq<Effect>, q: seq<Effect>)
    requires Settled(p + q)
    ensures Settled(p) <==> Settled(q)
  {
    hide Replay, OwedFrom;
    ReadConcat(p, q);
    OwedConcat(0, Replay(p), Replay(q));
    if Settled(q) {
      OwedOnce(OwedFrom(0, Replay(p)).value, Replay(q));
    }
  }

  /** An effect that is no result and asks for none. */
  lemma SettledAppend(log: seq<Effect>, e: Effect)
    requires Settled(log) && OutcomeOf(e) == [] && (e.AssistantItem? ==> e.calls == [])
    ensures Settled(log + [e])
  {
    ReadOne(e, Rebuilt);
    assert Settled([e]);
    SettledConcat(log, [e]);
  }

  /** An answer with its batch. */
  lemma SettledTurn(m: Message, b: BatchRecord)
    requires HasCalls(m) && BatchTrace(m.toolCalls, b)
    ensures Settled([AssistantItem(m.content, m.toolCalls)] + b.log)
  {
    hide BatchTrace, Replay, Outcomes;
    var item := AssistantItem(m.content, m.toolCalls);
    RebuiltReplies(m.toolCalls, b);
    ResultsPay(Replay(b.log));
    SingleReplay(item);
    ReadConcat([item], b.log);
    assert (Rebuilt(item) + Replay(b.log))[1..] == Replay(b.log);
  }

  // ----- when a log replays to a well-formed transcript

  /** The k-th report after an answer names its k-th call, for every answer. */
  ghost predicate AnsweredInOrder(log: seq<Effect>) {
    log != [] ==>
      && (log[0].AssistantItem? ==> Named(log[0].calls, Outcomes(log[1..])))
      && AnsweredInOrder(log[1..])
  }

  ghost predicate Named(calls: seq<ToolCall>, outcomes: seq<Outcome>) {
    forall k :: 0 <= k < |calls| && k < |outcomes| ==> outcomes[k].call.callId == calls[k].callId
  }

  predicate IsUserItem(e: Effect) {
    e.UserItem? || e.SteerStored?
  }

  /** No user item is stored before the `n`-th report. */
  predicate NoUserBefore(log: seq<Effect>, n: nat) {
    n == 0 || log == []
    || (!IsUserItem(log[0]) && NoUserBefore(log[1..], if OutcomeOf(log[0]) == [] then n else n - 1))
  }

  /** Between an answer and the last report it asks for no user item is stored. */
  predicate Undisturbed(log: seq<Effect>) {
    log != [] ==>
      && (log[0].AssistantItem? ==> NoUserBefore(log[1..], |log[0].calls|))
      && Undisturbed(log[1..])
  }

  /** The first `n` messages are results. */
  ghost predicate ResultsLead(n: nat, messages: seq<Message>) {
    n <= |messages| && forall i :: 0 <= i < n ==> messages[i].role == Tool
  }

  /** How the first effect of a log is read. */
  lemma ReplayHead(log: seq<Effect>, n: nat)
    requires log != []
    ensures var (e, rest) := (log[0], log[1..]);
      && (OutcomeOf(e) != [] ==> Outcomes(log) == [OutcomeOf(e)[0]] + Outcomes(rest))
      && (OutcomeOf(e) == [] ==> Outcomes(log) == Outcomes(rest))
      && (Rebuilt(e) != [] ==> Replay(log) == [Rebuilt(e)[0]] + Replay(rest))
      && (Rebuilt(e) == [] ==> Replay(log) == Replay(rest))
      && OwedFrom(n, Replay(log)) == match OweAfter(n, e) case None => None case Some(k) => OwedFrom(k, Replay(rest))
  {
    if Rebuilt(log[0]) != [] {
      assert ([Rebuilt(log[0])[0]] + Replay(log[1..]))[1..] == Replay(log[1..]);
    }
  }

  function OweAfter(n: nat, e: Effect): Option<nat> {
    if Rebuilt(e) == [] then Some(n) else Owe(n, Rebuilt(e)[0])
  }

  lemma OneMoreResult(n: nat, m: Message, messages: seq<Message>)
    requires m.role == Tool
    ensures ResultsLead(n + 1, [m] + messages) <==> ResultsLead(n, messages)
  {
    assert forall i :: 0 <= i < |messages| ==> ([m] + messages)[i + 1] == messages[i];
  }

  /** The next reports name the calls of the next results. */
  ghost predicate SameCalls(n: nat, messages: seq<Message>, outcomes: seq<Outcome>) {
    && n <= |messages| && n <= |outcomes|
    && forall i :: 0 <= i < n ==> messages[i].toolCallId == Some(outcomes[i].call.callId)
  }

  lemma OneMoreCall(n: nat, m: Message, messages: seq<Message>, o: Outcome, outcomes: seq<Outcome>)
    requires SameCalls(n, messages, outcomes) && m.toolCallId == Some(o.call.callId)
    ensures SameCalls(n + 1, [m] + messages, [o] + outcomes)
  {
    assert forall i :: 1 <= i <= n ==> ([m] + messages)[i] == messages[i - 1] && ([o] + outcomes)[i] == outcomes[i - 1];
  }

  /** When `n` results are due, they lead the replay exactly when no user item comes before the
      last of them, and then they are the next reports. */
  lemma {:induction false} DueReports(log: seq<Effect>, n: nat)
    requires OwedFrom(n, Replay(log)) == Some(0)
    ensures n <= |Outcomes(log)|
    ensures NoUserBefore(log, n) <==> ResultsLead(n, Replay(log))
    ensures ResultsLead(n, Replay(log)) ==> SameCalls(n, Replay(log), Outcomes(log))
  {
    hide Replay, Outcomes, ResultsLead, SameCalls, OwedFrom;
    if log == [] || n == 0 {
      NothingIsDue(log, n);
    } else {
      var (e, rest) := (log[0], log[1..]);
      ReplayHead(log, n);
      if OutcomeOf(e) != [] {
        DueReports(rest, n - 1);
        OneMoreResult(n - 1, Rebuilt(e)[0], Replay(rest));
        if ResultsLead(n - 1, Replay(rest)) {
          OneMoreCall(n - 1, Rebuilt(e)[0], Replay(rest), OutcomeOf(e)[0], Outcomes(rest));
        }
      } else {
        DueReports(rest, n);
        if IsUserItem(e) {
          UserLeads(n, Rebuilt(e)[0], Replay(rest));
        }
      }
    }
  }

  lemma NothingIsDue(log: seq<Effect>, n: nat)
    requires n == 0 || (log == [] && OwedFrom(n, Replay(log)) == Some(0))
    ensures n == 0 && ResultsLead(0, Replay(log)) && SameCalls(0, Replay(log), Outcomes(log))
  {
  }

  lemma UserLeads(n: nat, m: Message, messages: seq<Message>)
    requires n > 0 && m.role != Tool
    ensures !ResultsLead(n, [m] + messages)
  {
    assert ([m] + messages)[0] == m;
  }

  /** A turn: the answer `m`, with the rest of the log behind it. */
  lemma TurnExactly(m: Message, calls: seq<ToolCall>, rest: seq<Effect>)
    requires m.role == Assistant && m.toolCalls == calls && OwedFrom(|calls|, Replay(rest)) == Some(0)
    ensures |calls| <= |Outcomes(rest)|
    ensures NoUserBefore(rest, |calls|) ==> |calls| <= |Replay(rest)|
    ensures WellFormed([m] + Replay(rest)) <==>
      NoUserBefore(rest, |calls|) && Named(calls, Outcomes(rest)) && WellFormed(Replay(rest)[|calls|..])
  {
    hide Replay, Outcomes, OwedFrom, WellFormed, NoUserBefore;
    var (n, replies) := (|calls|, Replay(rest));
    DueReports(rest, n);
    ExchangeFirst(m, replies);
    if ResultsLead(n, replies) {
      assert replies[..n] == seq(n, i requires 0 <= i < n => replies[i]);
    } else if n <= |replies| && Answers(calls, replies[..n]) {
      assert forall i :: 0 <= i < n ==> replies[..n][i] == replies[i];
    }
  }

  lemma FirstExchange(history: seq<Message>)
    requires history != []
    ensures var n := ExchangeLength(history[0]);
      WellFormed(history) <==> n <= |history| && Exchange(history[..n]) && WellFormed(history[n..])
  {
  }

  /** A transcript that an assistant message starts. */
  lemma ExchangeFirst(m: Message, rest: seq<Message>)
    requires m.role == Assistant
    ensures var n := |m.toolCalls|;
      WellFormed([m] + rest) <==> n <= |rest| && Answers(m.toolCalls, rest[..n]) && WellFormed(rest[n..])
  {
    hide WellFormed, Answers;
    var (n, all) := (|m.toolCalls|, [m] + rest);
    FirstExchange(all);
    if n <= |rest| {
      var e := all[..n + 1];
      assert e[0] == m && e[1..] == rest[..n] && all[n + 1..] == rest[n..];
      if n == 0 {
        NoAnswers(m.toolCalls, rest[..n]);
      }
    }
  }

  lemma NoAnswers(calls: seq<ToolCall>, results: seq<Message>)
    requires calls == [] && results == []
    ensures Answers(calls, results)
  {
  }

  lemma PlainFirst(m: Message, rest: seq<Message>)
    requires m.role == User && m.toolCalls == []
    ensures WellFormed([m] + rest) <==> WellFormed(rest)
  {
    assert ([m] + rest)[1..] == rest && ([m] + rest)[..1] == [m];
  }

  lemma AfterResults(n: nat, m: Message, messages: seq<Message>)
    requires n <= |messages|
    ensures ([m] + messages)[n + 1..] == messages[n..]
  {
  }

  lemma WholeSuffix(messages: seq<Message>)
    ensures messages[0..] == messages
  {
  }

  lemma NothingLeads(messages: seq<Message>)
    ensures ResultsLead(0, messages)
  {
  }

  lemma LeadsWithin(n: nat, messages: seq<Message>)
    requires ResultsLead(n, messages)
    ensures n <= |messages|
  {
  }

  lemma EmptyIsWellFormed(log: seq<Effect>)
    requires log == []
    ensures Replay(log)[0..] == [] && WellFormed([])
  {
  }

  /**
    The transcript that a log replays to, behind the `n` results that lead it, is well-formed
    exactly when after every answer the reports name its calls in call order, and no user item is
    stored before the last of them.
   */
  lemma {:induction false} ReplayWellFormedFrom(log: seq<Effect>, n: nat)
    requires OwedFrom(n, Replay(log)) == Some(0) && ResultsLead(n, Replay(log))
    ensures n <= |Replay(log)|
    ensures WellFormed(Replay(log)[n..]) <==> AnsweredInOrder(log) && Undisturbed(log)
  {
    hide Replay, Outcomes, OwedFrom, WellFormed, ResultsLead, NoUserBefore, Named;
    LeadsWithin(n, Replay(log));
    if log == [] {
      NothingIsDue(log, n);
      EmptyIsWellFormed(log);
    } else {
      var (e, rest) := (log[0], log[1..]);
      ReplayHead(log, n);
      if e.AssistantItem? {
        assert n == 0;
        TurnExactly(Rebuilt(e)[0], e.calls, rest);
        DueReports(rest, |e.calls|);
        WholeSuffix(Replay(log));
        if NoUserBefore(rest, |e.calls|) {
          ReplayWellFormedFrom(rest, |e.calls|);
        }
      } else if IsUserItem(e) {
        if n > 0 {
          UserLeads(n, Rebuilt(e)[0], Replay(rest));
        }
        NothingLeads(Replay(rest));
        ReplayWellFormedFrom(rest, 0);
        PlainFirst(Rebuilt(e)[0], Replay(rest));
        WholeSuffix(Replay(log));
        WholeSuffix(Replay(rest));
      } else if OutcomeOf(e) != [] {
        OneMoreResult(n - 1, Rebuilt(e)[0], Replay(rest));
        LeadsWithin(n - 1, Replay(rest));
        AfterResults(n - 1, Rebuilt(e)[0], Replay(rest));
        ReplayWellFormedFrom(rest, n - 1);
      } else {
        ReplayWellFormedFrom(rest, n);
      }
    }
  }

  lemma {:induction false} WellFormedIsSettled(history: seq<Message>)
    requires WellFormed(history)
    ensures OwedFrom(0, history) == Some(0)
    decreases |history|
  {
    if history != [] {
      var n := ExchangeLength(history[0]);
      WellFormedIsSettled(history[n..]);
      ExchangeIsSettled(history[..n]);
      OwedConcat(0, history[..n], history[n..]);
      assert history == history[..n] + history[n..];
    }
  }

  lemma ExchangeIsSettled(e: seq<Message>)
    requires Exchange(e)
    ensures OwedFrom(0, e) == Some(0)
  {
    if HasCalls(e[0]) {
      assert forall i :: 0 <= i < |e[1..]| ==> e[1..][i].role == Tool;
      ResultsPay(e[1..]);
    } else {
      assert e[1..] == [];
    }
  }

  /** Any log at all replays to a well-formed transcript exactly when every call has its result, in
      call order, with no user item in between. */
  lemma ReplayWellFormedExactly(log: seq<Effect>)
    ensures WellFormed(Replay(log)) <==> Settled(log) && AnsweredInOrder(log) && Undisturbed(log)
  {
    hide Replay, OwedFrom, WellFormed, ResultsLead, AnsweredInOrder, Undisturbed;
    if WellFormed(Replay(log)) {
      WellFormedIsSettled(Replay(log));
    }
    if Settled(log) {
      NothingLeads(Replay(log));
      ReplayWellFormedFrom(log, 0);
      WholeSuffix(Replay(log));
    }
  }

  // ----- batches whose replay is not well-formed

  /** Calls that pass without asking are only requested at the gates. */
  lemma AllowedReportsNothing(calls: seq<ToolCall>, facts: seq<Facts>)
    requires |facts| == |calls| && forall i :: 0 <= i < |facts| ==> Refusal(facts[i]) == None
    ensures Outcomes(LaunchTrace(calls, facts)) == []
  {
    hide Outcomes, GateTrace, Refusal, LaunchTrace;
    GatesReportNothing(calls, facts);
    LaunchOutcomes(calls, facts);
  }

  lemma {:induction false} GatesReportNothing(calls: seq<ToolCall>, facts: seq<Facts>)
    requires |facts| <= |calls| && forall i :: 0 <= i < |facts| ==> Refusal(facts[i]) == None
    ensures Outcomes(GateTrace(calls, facts)) == []
  {
    hide Outcomes, GateTrace, Refusal;
    NothingReported(calls);
    NoOutcomes([]);
    if facts != [] {
      var last := |facts| - 1;
      GatesReportNothing(calls, facts[..last]);
      GateOutcomes(calls, facts[..last], facts[last]);
      assert facts == facts[..last] + [facts[last]];
    }
  }

  /** What is written when the second of two tools finishes first. */
  function SecondFirst(o1: Outcome, o2: Outcome): seq<Effect> {
    [ToolReturned(1, o2.result), ToolCompleted(o2), ToolReturned(0, o1.result), ToolCompleted(o1)]
  }

  /** A success that names no plan. */
  predicate Simple(o: Outcome) {
    !o.result.isError && o.result.planId == None
  }

  lemma SecondFirstReads(o1: Outcome, o2: Outcome)
    requires Simple(o1) && Simple(o2)
    ensures var finish := SecondFirst(o1, o2);
      && Outcomes(finish) == [o2, o1] && ResultEffects(finish) && StageFrom(Batch, finish) == Batch
      && PlansTold(finish, 4)
  {
    hide PlansTold;
    var finish := SecondFirst(o1, o2);
    NoPlans(finish);
    ToolsStayInBatch(finish);
    var left := [ToolReturned(1, o2.result), ToolCompleted(o2)];
    var right := [ToolReturned(0, o1.result), ToolCompleted(o1)];
    TwoEffects(1, o2);
    TwoEffects(0, o1);
    assert finish == left + right;
    ReadConcat(left, right);
  }

  lemma TruthfulParts(p: seq<Effect>, q: seq<Effect>)
    requires AllTruthful(p) && ResultEffects(q)
    ensures AllTruthful(p + q)
  {
  }

  lemma TwoEffects(i: nat, o: Outcome)
    ensures Outcomes([ToolReturned(i, o.result), ToolCompleted(o)]) == [o]
  {
    ReadConcat([ToolReturned(i, o.result)], [ToolCompleted(o)]);
    ReadOne(ToolReturned(i, o.result), OutcomeOf);
    ReadOne(ToolCompleted(o), OutcomeOf);
    assert [ToolReturned(i, o.result)] + [ToolCompleted(o)] == [ToolReturned(i, o.result), ToolCompleted(o)];
  }

  lemma SecondFirstTrace(calls: seq<ToolCall>, f: Facts, o1: Outcome, o2: Outcome)
    requires |calls| == 2 && Refusal(f) == None && o1.call == calls[0] && o2.call == calls[1]
    requires Simple(o1) && Simple(o2)
    ensures var log := LaunchTrace(calls, [f, f]) + SecondFirst(o1, o2);
      BatchTrace(calls, BatchRecord([f, f], [o1, o2], None, [1, 0], log, SecondFirst(o1, o2)))
  {
    hide LaunchTrace, Outcomes, Refusal, StageFrom, ResultEffects, PlansTold, AllTruthful;
    var launch, finish := LaunchTrace(calls, [f, f]), SecondFirst(o1, o2);
    AllowedReportsNothing(calls, [f, f]);
    SecondFirstReads(o1, o2);
    LaunchStaysInBatch(calls, [f, f]);
    TruthfulParts(launch, finish);
    StageConcat(Batch, launch, finish);
    ReadConcat(launch, finish);
    var (results, order) := ([o1, o2], [1, 0]);
    assert [o2, o1] == seq(|order|, k requires 0 <= k < |order| => results[order[k]]);
    assert finish[0] == ToolReturned(1, o2.result) && finish[2] == ToolReturned(0, o1.result);
  }

  /** Completion out of call order exists, and what it replays to is not well-formed. */
  lemma OutOfOrderBatch() returns (m: Message, b: BatchRecord)
    ensures HasCalls(m) && BatchTrace(m.toolCalls, b) && b.order == [1, 0]
    ensures |m.toolCalls| == 2 && m.toolCalls[0].callId != m.toolCalls[1].callId
    ensures !WellFormed([m] + Replay(b.log)) && !AnsweredInOrder([AssistantItem(m.content, m.toolCalls)] + b.log)
  {
    hide BatchTrace, Replay, WellFormed, AnsweredInOrder, LaunchTrace;
    var first, second := ToolCall("call-1", "read_file", "{}"), ToolCall("call-2", "read_file", "{}");
    var f := Facts(true, true, false, false, None, None, None, Allow, false);
    var ok := ToolResult(false, "", "done", [], None);
    m := Message(Assistant, None, [], [first, second], None, None);
    var (o1, o2) := (Outcome(first, ok), Outcome(second, ok));
    b := BatchRecord([f, f], [o1, o2], None, [1, 0], LaunchTrace([first, second], [f, f]) + SecondFirst(o1, o2),
      SecondFirst(o1, o2));
    SecondFirstTrace([first, second], f, o1, o2);
    assert WellFormed([]) by { EmptyIsWellFormed([]); }
    RebuiltTurnWellFormedExactly([], m, b);
    assert [] + [m] + Replay(b.log) == [m] + Replay(b.log);
    assert m.toolCalls[b.order[0]].callId[5] != m.toolCalls[0].callId[5];
    SettledTurn(m, b);
    TurnReplay(m, b);
    BatchKinds(m.toolCalls, b);
    BatchUndisturbed(AssistantItem(m.content, m.toolCalls), b.log);
    ReplayWellFormedExactly([AssistantItem(m.content, m.toolCalls)] + b.log);
  }

  /** No user item comes from the run itself inside a batch. */
  lemma BatchUndisturbed(item: Effect, log: seq<Effect>)
    requires item.AssistantItem? && BatchEffects(log)
    ensures Undisturbed([item] + log)
  {
    NoUserInBatch(log, |item.calls|);
    assert ([item] + log)[1..] == log;
  }

  lemma {:induction false} NoUserInBatch(log: seq<Effect>, n: nat)
    requires BatchEffects(log)
    ensures NoUserBefore(log, n) && Undisturbed(log)
  {
    if log != [] {
      NoUserInBatch(log[1..], if n == 0 || OutcomeOf(log[0]) == [] then n else n - 1);
    }
  }

  lemma TurnReplay(m: Message, b: BatchRecord)
    requires m == Message(Assistant, m.content, [], m.toolCalls, None, None)
    ensures Replay([AssistantItem(m.content, m.toolCalls)] + b.log) == [m] + Replay(b.log)
  {
    ReadConcat([AssistantItem(m.content, m.toolCalls)], b.log);
    SingleReplay(AssistantItem(m.content, m.toolCalls));
  }
}
