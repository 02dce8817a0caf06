/**
  What the log of a tool batch replays to: the same results as the live transcript, in the order of
  completion, and when that order still makes a well-formed transcript.
 */
module BatchReplay {
  import opened Basics
  import opened Options
  import opened Transcript
  import opened Journal
  import opened Protocol
  import opened HistoryRebuild
  import opened ToolBatch

  function ResultMessages(results: seq<Outcome>): (r: seq<Message>)
    ensures |r| == |results| && forall i :: 0 <= i < |r| ==> r[i].role == Tool
  {
    seq(|results|, i requires 0 <= i < |results| =>
      ToolResultMessage(results[i].call, results[i].result.output, results[i].result.parts))
  }

  function ResultKeys(results: seq<Outcome>): seq<ResultKey> {
    seq(|results|, i requires 0 <= i < |results| => KeyOf(results[i]))
  }

  /** What the model is told of a call that was settled. */
  function KeyOf(o: Outcome): ResultKey {
    ResultKey(Some(o.call.callId), Some(o.call.name), Some(o.result.output), o.result.parts)
  }

  lemma BatchKinds(calls: seq<ToolCall>, b: BatchRecord)
    requires BatchTrace(calls, b)
    ensures BatchEffects(b.log)
  {
    hide LaunchTrace, Outcomes, IsSettled, StageFrom;
    LaunchStaysInBatch(calls, b.facts);
  }

  /** One tool message for each outcome, with its call's id. */
  ghost predicate Mirrors(replay: seq<Message>, outcomes: seq<Outcome>) {
    && |replay| == |outcomes|
    && forall i :: 0 <= i < |replay| ==> replay[i].role == Tool && replay[i].toolCallId == Some(outcomes[i].call.callId)
  }

  /** What a log of batch effects is read as. */
  ghost predicate ReadsAsBatch(log: seq<Effect>) {
    && Quiet(log) && NoCompaction(log) && Requests(log) == [] && Usages(log) == []
    && Says(SpokenIn(log), Outcomes(log)) && Mirrors(Replay(log), Outcomes(log))
  }

  /** Tool results only, and exactly those of the outcomes. */
  ghost predicate Says(messages: seq<Message>, outcomes: seq<Outcome>) {
    && Keys(messages) == multiset(ResultKeys(outcomes))
    && forall i :: 0 <= i < |messages| ==> messages[i].role == Tool
  }

  lemma NothingReads()
    ensures ReadsAsBatch([])
  {
  }

  lemma MirrorsAppend(replay: seq<Message>, outcomes: seq<Outcome>, e: Effect)
    requires Mirrors(replay, outcomes) && (IsToolEffect(e) || e.CancelSeen?)
    ensures Mirrors(replay + Rebuilt(e), outcomes + OutcomeOf(e))
  {
  }

  lemma NoUsageOrRequest(e: Effect)
    requires IsToolEffect(e) || e.CancelSeen?
    ensures !e.ModelCalled? && !e.UsageUpdated? && !e.SessionCompacted? && !IsTerminal(e)
  {
  }

  lemma OneMoreReads(log: seq<Effect>, e: Effect)
    requires ReadsAsBatch(log) && (IsToolEffect(e) || e.CancelSeen?)
    ensures ReadsAsBatch(log + [e])
  {
    hide Replay, SpokenIn, Outcomes, Requests, Usages, Quiet, NoCompaction, Says, Mirrors, Rebuilt, Spoken, OutcomeOf;
    NoUsageOrRequest(e);
    MirrorsAppend(Replay(log), Outcomes(log), e);
    SaysOneMore(SpokenIn(log), Outcomes(log), e);
    ReadAppend(log, e);
    Prefix(log, e);
  }

  /** The effects of a batch replay to its results, one message each, and touch nothing else. */
  lemma {:induction false} BatchReadings(log: seq<Effect>)
    requires BatchEffects(log)
    ensures Quiet(log) && NoCompaction(log) && Requests(log) == [] && Usages(log) == []
    ensures Says(SpokenIn(log), Outcomes(log)) && Mirrors(Replay(log), Outcomes(log))
  {
    hide Replay, SpokenIn, Outcomes, Requests, Usages, Says, Quiet, NoCompaction, Mirrors;
    NothingReads();
    if log != [] {
      var last := |log| - 1;
      BatchReadings(log[..last]);
      OneMoreReads(log[..last], log[last]);
      assert log == log[..last] + [log[last]];
    }
  }

  lemma SaysOneMore(messages: seq<Message>, outcomes: seq<Outcome>, e: Effect)
    requires Says(messages, outcomes) && (IsToolEffect(e) || e.CancelSeen?)
    ensures Says(messages + Spoken(e), outcomes + OutcomeOf(e))
  {
    hide Keys;
    if OutcomeOf(e) == [] {
      assert messages + Spoken(e) == messages && outcomes + OutcomeOf(e) == outcomes;
    } else {
      var o := OutcomeOf(e)[0];
      KeysAppend(messages, Spoken(e)[0]);
      assert ResultKeys(outcomes + [o]) == ResultKeys(outcomes) + [KeyOf(o)];
    }
  }

  /** What the log says of a batch and what the run pushes are the same results, in possibly
      different orders. */
  lemma SameResults(calls: seq<ToolCall>, b: BatchRecord)
    requires BatchTrace(calls, b)
    ensures multiset(ResultKeys(Outcomes(b.log))) == multiset(ResultKeys(b.results)) == Keys(ResultMessages(b.results))
  {
    hide LaunchTrace, Outcomes, StageFrom, IsSettled;
    PermutedMultiset(b.order, ResultKeys(b.results), ResultKeys(Outcomes(b.log)));
    var messages := ResultMessages(b.results);
    assert seq(|messages|, i requires 0 <= i < |messages| => Key(messages[i])) == ResultKeys(b.results);
  }

  lemma TurnReadings(log: seq<Effect>, item: Effect, calls: seq<ToolCall>, b: BatchRecord)
    requires item.AssistantItem? && BatchTrace(calls, b)
    ensures Requests(log + [item] + b.log) == Requests(log) && Usages(log + [item] + b.log) == Usages(log)
    ensures Quiet(log) ==> Quiet(log + [item] + b.log)
    ensures NoCompaction(log + [item] + b.log) <==> NoCompaction(log)
  {
    hide BatchTrace;
    BatchKinds(calls, b);
    BatchReadings(b.log);
    ReadAppend(log, item);
    Prefix(log, item);
    ReadConcat(log + [item], b.log);
    var all := log + [item] + b.log;
    assert forall i :: 0 <= i < |log| ==> all[i] == log[i];
  }

  lemma TurnWellFormedExactly(p: seq<Message>, m: Message, replies: seq<Message>)
    requires WellFormed(p) && HasCalls(m) && |replies| == |m.toolCalls|
    ensures WellFormed(p + [m] + replies) <==> Answers(m.toolCalls, replies)
  {
    WellFormedConcat(p, [m] + replies);
    assert p + [m] + replies == p + ([m] + replies);
    assert ([m] + replies)[..|replies| + 1] == [m] + replies && ([m] + replies)[1..] == replies;
    if Answers(m.toolCalls, replies) {
      AnsweredCalls(p, m, replies);
    }
  }

  lemma RebuiltReplies(calls: seq<ToolCall>, b: BatchRecord)
    requires BatchTrace(calls, b)
    ensures |Replay(b.log)| == |calls| && forall k :: 0 <= k < |calls| ==>
      Replay(b.log)[k].role == Tool && Replay(b.log)[k].toolCallId == Some(calls[b.order[k]].callId)
  {
    hide LaunchTrace, Outcomes, Replay, StageFrom, IsSettled;
    BatchKinds(calls, b);
    BatchReadings(b.log);
    assert forall k :: 0 <= k < |calls| ==> Outcomes(b.log)[k] == b.results[b.order[k]];
  }

  /**
    A rebuilt transcript answers a batch in the order of completion. It is well-formed exactly
    when that order names the same calls as the call order.
   */
  lemma RebuiltTurnWellFormedExactly(p: seq<Message>, m: Message, b: BatchRecord)
    requires WellFormed(p) && HasCalls(m) && BatchTrace(m.toolCalls, b)
    ensures WellFormed(p + [m] + Replay(b.log))
       <==> forall k :: 0 <= k < |m.toolCalls| ==> m.toolCalls[b.order[k]].callId == m.toolCalls[k].callId
  {
    hide WellFormed, LaunchTrace, Outcomes, Replay, StageFrom, IsSettled;
    RebuiltReplies(m.toolCalls, b);
    TurnWellFormedExactly(p, m, Replay(b.log));
  }

  lemma SingleReplay(e: Effect)
    ensures Replay([e]) == Rebuilt(e)
  {
    ReadOne(e, Rebuilt);
  }
}
