/**
  What holds of a run between any two of its effects, and when each effect is allowed by what came
  before it: requests, answers, errors, compactions and failures.
 */
module RunLaws {
  import opened Basics
  import opened Options
  import opened Transcript
  import Compaction
  import CompactHistory
  import SummaryReserve
  import opened Journal
  import opened Protocol
  import opened StreamReading
  import opened HistoryRebuild
  import opened ToolBatch
  import opened BatchReplay
  import opened RunReplay
  import opened StoredSteers
  import opened Recall

  datatype Limits = Limits(
    maxIterations: nat, maxTotalTokens: Option<u64>, maxCost: Option<u64>, contextTokens: u64, maxRetries: nat)

  datatype RunOutcome =
    | Completed(history: seq<Message>, usage: Usage)
    | Cancelled(history: seq<Message>, reason: string)
    | Failed(history: seq<Message>, code: string)

  /** Why a turn ends the run. */
  datatype Stop = Finished | CancelledBy(reason: string) | FailedWith(code: string)

  predicate LimitsExceeded(limits: Limits, usage: Usage) {
    || (limits.maxTotalTokens.Some? && usage.total > limits.maxTotalTokens.value)
    || (limits.maxCost.Some? && (usage.cost == None || usage.cost.value > limits.maxCost.value))
  }

  function TerminalOf(stop: Stop): Effect {
    match stop
    case Finished => RunCompleted
    case CancelledBy(reason) => RunCancelled(reason)
    case FailedWith(code) => RunFailed(code)
  }

  function OutcomeFor(stop: Stop, history: seq<Message>, usage: Usage): RunOutcome {
    match stop
    case Finished => Completed(history, usage)
    case CancelledBy(reason) => Cancelled(history, reason)
    case FailedWith(code) => Failed(history, code)
  }

  /** A total is within its limit, if there is one; an unknown total is not. */
  predicate Within(limit: Option<u64>, total: Option<nat>) {
    limit == None || (total.Some? && total.value <= limit.value)
  }

  /** The limits are exceeded, or there are limits and the turn went by without a usage report. */
  ghost predicate Overdrawn(limits: Limits, log: seq<Effect>) {
    var total := TotalUsage(Usages(log));
    || !Within(limits.maxTotalTokens, Some(total.total)) || !Within(limits.maxCost, total.cost)
    || ((limits.maxTotalTokens.Some? || limits.maxCost.Some?) && !TallyOf(log).metered)
  }

  lemma ExceededExactly(limits: Limits, usage: Usage)
    ensures LimitsExceeded(limits, usage) <==>
      !Within(limits.maxTotalTokens, Some(usage.total)) || !Within(limits.maxCost, usage.cost)
  {
  }

  // ----- what holds between any two effects of a run

  /** The transcript is what a compaction to the context window gives. */
  ghost predicate FromCompaction(limits: Limits, messages: seq<Message>) {
    exists h, summary :: messages == Compaction.Compact(h, limits.contextTokens, summary).messages
  }

  /** The transcript takes more than 85 percent of the window, in 64-bit arithmetic, and there is
      something to summarise. */
  ghost predicate SummaryIsDue(limits: Limits, history: seq<Message>) {
    && 100 * Compaction.Estimate(history) > Min(85 * limits.contextTokens, U64_MAX)
    && Compaction.DropCandidates(history, limits.contextTokens) != []
  }

  /** The question for a summary since the last request or drain, if there was one. */
  function LastAsk(log: seq<Effect>): Option<Effect> {
    if log == [] then None
    else
      var last := log[|log| - 1];
      if last.SummaryAsked? then Some(last)
      else if last.SessionCompacted? then LastAsk(log[..|log| - 1])
      else None
  }

  function Answered(log: seq<Effect>): Option<string> {
    match LastAsk(log) case None => None case Some(e) => if e.SummaryAsked? then e.answer else None
  }

  /** The run asks about what the last request held and everything said since. */
  ghost predicate AskIsDue(limits: Limits, start: seq<Message>, before: seq<Effect>, candidates: seq<Message>,
    keep: nat)
  {
    exists h :: Extends(start, before, h) && IsQuestion(limits, h, candidates, keep)
  }

  ghost predicate IsQuestion(limits: Limits, h: seq<Message>, candidates: seq<Message>, keep: nat) {
    && SummaryIsDue(limits, h) && candidates == Compaction.DropCandidates(h, limits.contextTokens)
    && keep == Monus(|Compaction.NonSystem(h)|, |Compaction.NonSystem(candidates)|)
  }

  /** It reports the compaction of that, with the summary it was given, if anything is dropped. */
  ghost predicate CutIsDue(limits: Limits, start: seq<Message>, before: seq<Effect>, e: Effect)
    requires e.SessionCompacted?
  {
    exists h :: Extends(start, before, h) &&
      var r := Compaction.Compact(h, limits.contextTokens, Answered(before));
      r.dropped > 0 && e == SessionCompacted(|r.messages|, r.summary, None)
  }

  /** And it sends that compaction, asked and reported as it had to be. */
  ghost predicate Renews(limits: Limits, start: seq<Message>, before: seq<Effect>, messages: seq<Message>) {
    exists h :: Extends(start, before, h) && AsCompacted(limits, before, h, messages)
  }

  ghost predicate AsCompacted(limits: Limits, before: seq<Effect>, h: seq<Message>, messages: seq<Message>) {
    var r := Compaction.Compact(h, limits.contextTokens, Answered(before));
    && messages == r.messages && (StageOf(before).Compacted? <==> r.dropped > 0)
    && (LastAsk(before).Some? <==> SummaryIsDue(limits, h))
  }

  /** The last request again, with a retry left. */
  ghost predicate Repeats(limits: Limits, before: seq<Effect>, messages: seq<Message>) {
    && LastRequest(before) == Some(messages) && SpokenIn(Since(before)) == []
    && TallyOf(before).attempts <= limits.maxRetries
  }

  /**
    When an effect may happen after those in `before`: a request is well-formed, holds the end of
    everything said so far, all of it without compaction, and is the compaction of the last one and
    what was said since, or that one again; an answer is exactly what the stream delivered, and within
    the limits; an error is the one the stream ended with; a drain hands over user messages; a run
    fails over its limits, its iterations or its retries only when it is due.
   */
  ghost predicate Allowed(limits: Limits, start: seq<Message>, before: seq<Effect>, e: Effect) {
    match e
    case ModelCalled(messages) =>
      && WellFormed(messages) && FromCompaction(limits, messages) && Faithful(start, before, messages)
      && if StageOf(before).Retrying? then Repeats(limits, before, messages)
         else Renews(limits, start, before, messages)
    case AssistantItem(content, calls) =>
      && !Overdrawn(limits, before) && IsAnswer(TallyOf(before), content, calls)
      && AnswersStream(ReadingOf(before), content, calls)
    case ProviderError(retryable, code) =>
      ReadingOf(before).Inside? ==> FailsStream(ReadingOf(before), retryable, code)
    case SummaryAsked(candidates, keep, _) => AskIsDue(limits, start, before, candidates, keep)
    case SessionCompacted(_, _, _) => CutIsDue(limits, start, before, e)
    case SteersDrained(steers) => AreSteers(steers)
    case RunFailed(_) => FailureIsDue(limits, before)
    case _ => true
  }

  ghost predicate FailureIsDue(limits: Limits, before: seq<Effect>) {
    var stage := StageOf(before);
    && (stage.Idle? || stage.Batch? ==> TallyOf(before).answers == limits.maxIterations)
    && (InStream(stage) ==> Overdrawn(limits, before) && ReadToEnd(ReadingOf(before)))
    && (stage.Retrying? ==> TallyOf(before).attempts == 1 + limits.maxRetries)
  }

  /** Every effect was allowed by what came before it. */
  ghost predicate Lawful(limits: Limits, start: seq<Message>, log: seq<Effect>) {
    log != [] ==>
      && Allowed(limits, start, log[..|log| - 1], log[|log| - 1])
      && Lawful(limits, start, log[..|log| - 1])
  }

  lemma {:induction false} LawfulEverywhere(limits: Limits, start: seq<Message>, log: seq<Effect>, i: nat)
    requires Lawful(limits, start, log) && i < |log|
    ensures Allowed(limits, start, log[..i], log[i])
  {
    hide Allowed;
    var last := |log| - 1;
    if i < last {
      LawfulEverywhere(limits, start, log[..last], i);
      assert log[..last][..i] == log[..i];
    }
  }

  /** The last request was compacted. */
  lemma {:induction false} LastFromCompaction(limits: Limits, start: seq<Message>, log: seq<Effect>)
    requires Lawful(limits, start, log) && LastRequest(log).Some?
    ensures FromCompaction(limits, LastRequest(log).value)
  {
    hide FromCompaction, Faithful, WellFormed, Renews, Repeats, StageOf;
    if !log[|log| - 1].ModelCalled? {
      LastFromCompaction(limits, start, log[..|log| - 1]);
    }
  }

  /** The running totals are those of the usage events; the cost is known while all had one. */
  ghost predicate Accounted(log: seq<Effect>, usage: Usage, costComplete: bool) {
    usage == TotalUsage(Usages(log)) && costComplete == AllCosted(Usages(log))
  }

  /** The invariant of a run that is not over. */
  ghost predicate Running(limits: Limits, start: seq<Message>, log: seq<Effect>, history: seq<Message>, usage: Usage,
    costComplete: bool)
  {
    && WellFormed(history)
    && Quiet(log)
    && Accounted(log, usage, costComplete)
    && Faithful(start, log, history)
    && Settled(log)
    && Lawful(limits, start, log)
  }

  /** The same, and the transcript is what the last request held and everything said since. */
  ghost predicate Current(limits: Limits, start: seq<Message>, log: seq<Effect>, history: seq<Message>, usage: Usage,
    costComplete: bool)
  {
    Running(limits, start, log, history, usage, costComplete) && Extends(start, log, history)
  }

  lemma LawfulAppend(limits: Limits, start: seq<Message>, log: seq<Effect>, e: Effect)
    requires Lawful(limits, start, log) && Allowed(limits, start, log, e)
    ensures Lawful(limits, start, log + [e])
  {
    hide Allowed;
    assert (log + [e])[..|log|] == log;
  }

  /** The run may end here for this reason. */
  ghost predicate EndsWith(limits: Limits, log: seq<Effect>, stop: Stop) {
    Next(StageOf(log), TerminalOf(stop)) == Over && (stop.FailedWith? ==> FailureIsDue(limits, log))
  }

  /** Between two turns: nothing streamed is unanswered, and so many answers were given. */
  predicate BetweenTurns(log: seq<Effect>, turns: nat) {
    (StageOf(log).Idle? || StageOf(log).Batch?) && Balanced(TallyOf(log)) && TallyOf(log).answers == turns
  }

  /** How a turn starts. */
  lemma TurnMoves(log: seq<Effect>, turns: nat)
    requires BetweenTurns(log, turns)
    ensures Balanced(TallyOf(log)) && TallyOf(log).answers == turns
    ensures MayCancel(StageOf(log))
    ensures forall e: Effect :: e.SteersDrained? ==> Next(StageOf(log), e) == Ready
  {
    hide StageOf, TallyOf;
  }

  /** A stage that has failed, was cancelled or is done ends the run in its own way. */
  lemma Endings(limits: Limits, log: seq<Effect>)
    ensures var stage := StageOf(log);
      && (stage.Failing? ==> EndsWith(limits, log, FailedWith(stage.code)))
      && (stage.Retrying? && TallyOf(log).attempts == 1 + limits.maxRetries ==>
          EndsWith(limits, log, FailedWith(stage.code)))
      && (stage.Cancelling? ==> EndsWith(limits, log, CancelledBy(stage.reason)))
      && (stage.Done? ==> EndsWith(limits, log, Finished))
  {
    hide StageOf, TallyOf, ReadingOf, Overdrawn;
  }

  lemma BudgetEnds(limits: Limits, log: seq<Effect>)
    requires InStream(StageOf(log)) && Overdrawn(limits, log) && ReadToEnd(ReadingOf(log))
    ensures EndsWith(limits, log, FailedWith("run_budget_exceeded"))
  {
    hide StageOf, Overdrawn, ReadingOf, ReadToEnd;
  }

  lemma IterationsEnd(limits: Limits, log: seq<Effect>)
    requires BetweenTurns(log, limits.maxIterations)
    ensures EndsWith(limits, log, FailedWith("iteration_limit"))
  {
    hide StageOf, TallyOf, Overdrawn, ReadingOf;
  }

  /** Something that may take long is under way, or a turn is about to start. */
  predicate MayCancel(stage: Stage) {
    stage.Idle? || stage.Batch? || stage.Retrying? || InStream(stage)
  }

  /** What was streamed since the last answer. */
  predicate Collected(log: seq<Effect>, content: string, calls: seq<ToolCall>) {
    var t := TallyOf(log);
    t.streamedText == t.answeredText + content && t.streamedCalls == t.answeredCalls + calls
  }

  predicate CanRequest(stage: Stage) {
    stage.Ready? || stage.Asked? || stage.Compacted?
  }

  predicate InStream(stage: Stage) {
    stage.Silent? || stage.Streaming?
  }

  lemma UsageIsTotal(limits: Limits, start: seq<Message>, log: seq<Effect>, history: seq<Message>, usage: Usage,
    costComplete: bool)
    requires Running(limits, start, log, history, usage, costComplete)
    ensures usage == TotalUsage(Usages(log)) && WellFormed(history)
  {
  }

  /** Effects that leave the transcript and the accounts as they are. */
  predicate Unread(e: Effect) {
    || e.RunStarted? || IsDelta(e) || e.ProviderError? || e.BudgetRefused? || e.CancelSeen? || e.StreamOpened?
    || e.SummaryAsked? || e.SessionCompacted?
  }

  lemma EmitUnread(limits: Limits, start: seq<Message>, log: seq<Effect>, history: seq<Message>, usage: Usage,
    costComplete: bool, e: Effect)
    requires Running(limits, start, log, history, usage, costComplete) && Unread(e) && !e.SessionCompacted?
    requires Allowed(limits, start, log, e)
    ensures Running(limits, start, log + [e], history, usage, costComplete)
    ensures Requests(log + [e]) == Requests(log)
    ensures Extends(start, log, history) ==> Extends(start, log + [e], history)
  {
    hide Faithful, Settled, Allowed, Extends, WellFormed;
    ReadAppend(log, e);
    Prefix(log, e);
    UnreadFaithful(start, log, history, e);
    SettledAppend(log, e);
    LawfulAppend(limits, start, log, e);
    if Extends(start, log, history) {
      EffectExtends(start, log, history, e);
    }
  }

  lemma CallModel(limits: Limits, start: seq<Message>, log: seq<Effect>, history: seq<Message>, usage: Usage,
    costComplete: bool)
    requires Running(limits, start, log, history, usage, costComplete)
    requires MayRequest(limits, start, log, history)
    ensures Current(limits, start, log + [ModelCalled(history)], history, usage, costComplete)
    ensures |Requests(log + [ModelCalled(history)])| == |Requests(log)| + 1
    ensures LastRequest(log + [ModelCalled(history)]) == Some(history)
  {
    hide Faithful, Settled, Extends, Renews, Repeats, FromCompaction, WellFormed, StageOf;
    ReadAppend(log, ModelCalled(history));
    Prefix(log, ModelCalled(history));
    UnreadFaithful(start, log, history, ModelCalled(history));
    SettledAppend(log, ModelCalled(history));
    RequestIsCompacted(limits, start, log, history);
    LawfulAppend(limits, start, log, ModelCalled(history));
    RequestExtends(start, log, history);
  }

  /** A first request of a turn, or one more attempt. */
  ghost predicate MayRequest(limits: Limits, start: seq<Message>, log: seq<Effect>, history: seq<Message>) {
    if StageOf(log).Retrying? then Repeats(limits, log, history) else Renews(limits, start, log, history)
  }

  lemma RequestIsCompacted(limits: Limits, start: seq<Message>, log: seq<Effect>, history: seq<Message>)
    requires Lawful(limits, start, log) && MayRequest(limits, start, log, history)
    ensures FromCompaction(limits, history)
  {
    hide StageOf, Lawful, Extends, Compaction.Compact;
    if StageOf(log).Retrying? {
      LastFromCompaction(limits, start, log);
    } else {
      var h :| Extends(start, log, h) && AsCompacted(limits, log, h, history);
    }
  }

  lemma ReportUsage(limits: Limits, start: seq<Message>, log: seq<Effect>, history: seq<Message>, usage: Usage,
    costComplete: bool, u: Usage)
    requires Current(limits, start, log, history, usage, costComplete)
    ensures var complete := costComplete && u.cost.Some?;
      var total := AddUsage(usage, u);
      Current(limits, start, log + [UsageUpdated(u)], history, if complete then total else total.(cost := None),
        complete)
    ensures Requests(log + [UsageUpdated(u)]) == Requests(log)
  {
    hide Faithful, Settled, Extends, WellFormed;
    ReadAppend(log, UsageUpdated(u));
    Prefix(log, UsageUpdated(u));
    UnreadFaithful(start, log, history, UsageUpdated(u));
    SettledAppend(log, UsageUpdated(u));
    LawfulAppend(limits, start, log, UsageUpdated(u));
    EffectExtends(start, log, history, UsageUpdated(u));
    TotalOneMore(Usages(log), u);
  }

  lemma PlainItem(limits: Limits, start: seq<Message>, log: seq<Effect>, history: seq<Message>, usage: Usage,
    costComplete: bool, e: Effect, m: Message)
    requires Current(limits, start, log, history, usage, costComplete)
    requires m.role == User || (m.role == Assistant && m.toolCalls == [])
    requires e.UserItem? || (e.AssistantItem? && Allowed(limits, start, log, e))
    requires Spoken(e) == [m]
    ensures Current(limits, start, log + [e], history + [m], usage, costComplete)
    ensures Requests(log + [e]) == Requests(log)
  {
    hide Faithful, Settled, Extends, WellFormed, Overdrawn, IsAnswer, AnswersStream;
    PushItem(start, log, history, e, m);
    SettledAppend(log, e);
    LawfulAppend(limits, start, log, e);
    PlainMessage(history, m);
    ReadAppend(log, e);
    Prefix(log, e);
    EffectExtends(start, log, history, e);
  }

  // ----- a turn with tool calls

  lemma AnsweredTurn(limits: Limits, start: seq<Message>, log: seq<Effect>, history: seq<Message>, usage: Usage,
    costComplete: bool, m: Message, b: BatchRecord)
    requires Current(limits, start, log, history, usage, costComplete)
    requires HasCalls(m) && BatchTrace(m.toolCalls, b) && IsItem(m)
    requires Allowed(limits, start, log, AssistantItem(m.content, m.toolCalls))
    ensures Current(limits, start, log + [AssistantItem(m.content, m.toolCalls)] + b.log,
      history + [m] + ResultMessages(b.results), usage, costComplete)
    ensures Requests(log + [AssistantItem(m.content, m.toolCalls)] + b.log) == Requests(log)
  {
    hide Faithful, Settled, Lawful, Allowed, LaunchTrace, Outcomes, StageFrom, IsSettled, Extends, BatchTrace,
      WellFormed;
    var item := AssistantItem(m.content, m.toolCalls);
    TurnReadings(log, item, m.toolCalls, b);
    TurnIsFaithful(start, log, history, m, b);
    assert Answers(m.toolCalls, ResultMessages(b.results)) by { ResultsAnswer(m.toolCalls, b); }
    AnsweredCalls(history, m, ResultMessages(b.results));
    SettledTurn(m, b);
    SettledConcat(log, [item] + b.log);
    assert log + [item] + b.log == log + ([item] + b.log);
    LawfulAppend(limits, start, log, item);
    LawfulBatch(limits, start, log + [item], m.toolCalls, b);
    AnswerIsSpoken(m);
    EffectExtends(start, log, history, item);
    BatchExtends(start, log + [item], history + [m], m.toolCalls, b);
  }

  lemma ResultsAnswer(calls: seq<ToolCall>, b: BatchRecord)
    requires BatchTrace(calls, b)
    ensures Answers(calls, ResultMessages(b.results))
  {
    hide LaunchTrace, Outcomes, StageFrom, IsSettled, PlansTold, AllTruthful;
  }

  /** A batch may come at any time: what is restricted is not among its effects. */
  lemma LawfulBatch(limits: Limits, start: seq<Message>, log: seq<Effect>, calls: seq<ToolCall>, b: BatchRecord)
    requires Lawful(limits, start, log) && BatchTrace(calls, b)
    ensures Lawful(limits, start, log + b.log)
  {
    hide BatchTrace, Lawful;
    BatchKinds(calls, b);
    LawfulEffects(limits, start, log, b.log);
  }

  lemma ToolsAreAllowed(limits: Limits, start: seq<Message>, log: seq<Effect>, e: Effect)
    requires IsToolEffect(e) || e.CancelSeen?
    ensures Allowed(limits, start, log, e)
  {
  }

  lemma {:induction false} LawfulEffects(limits: Limits, start: seq<Message>, log: seq<Effect>, batch: seq<Effect>)
    requires Lawful(limits, start, log) && BatchEffects(batch)
    ensures Lawful(limits, start, log + batch)
  {
    hide Lawful, Allowed;
    if batch == [] {
      assert log + batch == log;
    } else {
      var last := |batch| - 1;
      LawfulEffects(limits, start, log, batch[..last]);
      ToolsAreAllowed(limits, start, log + batch[..last], batch[last]);
      LawfulAppend(limits, start, log + batch[..last], batch[last]);
      assert log + batch == log + batch[..last] + [batch[last]];
    }
  }

  // ----- steers and compaction

  lemma FoldSteers(limits: Limits, start: seq<Message>, log: seq<Effect>, history: seq<Message>, usage: Usage,
    costComplete: bool, steers: seq<Message>)
    requires Current(limits, start, log, history, usage, costComplete)
    requires AreSteers(steers)
    ensures Current(limits, start, log + [SteersDrained(steers)], history + steers, usage, costComplete)
    ensures Requests(log + [SteersDrained(steers)]) == Requests(log)
  {
    hide Faithful, Plain, Settled, Extends, WellFormed;
    var e := SteersDrained(steers);
    SteersArePlain(steers);
    PlainIsWellFormed(steers);
    WellFormedConcat(history, steers);
    ReadAppend(log, e);
    Prefix(log, e);
    SettledAppend(log, e);
    LawfulAppend(limits, start, log, e);
    EffectExtends(start, log, history, e);
    assert Faithful(start, log + [e], history + steers) by { SteersFaithful(start, log, history, steers); }
  }

  lemma AfterCompaction(limits: Limits, start: seq<Message>, log: seq<Effect>, history: seq<Message>, usage: Usage,
    costComplete: bool, summary: Option<string>)
    requires Current(limits, start, log, history, usage, costComplete) && summary == Answered(log)
    ensures var r := Compaction.Compact(history, limits.contextTokens, summary);
      var e := SessionCompacted(|r.messages|, r.summary, None);
      var log' := if r.dropped > 0 then log + [e] else log;
      && Running(limits, start, log', r.messages, usage, costComplete) && Requests(log') == Requests(log)
      && Extends(start, log', history)
  {
    hide Compaction.Compact, Faithful, Settled, WellFormed, Extends, Answered;
    var r := Compaction.Compact(history, limits.contextTokens, summary);
    CompactHistory.CompactWellFormed(history, limits.contextTokens, summary);
    CompactionRemembered(start, log, history, limits.contextTokens, summary);
    if r.dropped > 0 {
      var e := SessionCompacted(|r.messages|, r.summary, None);
      ReadAppend(log, e);
      Prefix(log, e);
      SettledAppend(log, e);
      assert CutIsDue(limits, start, log, e);
      LawfulAppend(limits, start, log, e);
      EffectExtends(start, log, history, e);
    }
  }
}
