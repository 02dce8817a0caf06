/**
  The order of a run's effects, as an automaton that reads the journal: which effect may follow
  which, and which terminal event a run may end with.
 */
module Protocol {
  import opened Basics
  import opened Options
  import opened Transcript
  import opened Journal

  /** Where a run stands. `Rejected` is left by nothing. */
  datatype Stage =
    | Start
    | Opened
    | Idle  // between two turns
    | Ready  // the steers are drained
    | Asked  // a summary was asked for
    | Compacted
    | Requested(replacing: bool)  // a request is out, for the first stream or to replace a broken one
    | Silent  // a stream is open and nothing has come back
    | Streaming  // something has come back
    | Retrying(code: string, broken: bool)  // the request was rejected, or its stream broke
    | Failing(code: string)
    | Final  // an answer without calls
    | Done
    | Batch
    | Cancelling(reason: string, inBatch: bool)
    | Over
    | Rejected

  /** An effect of a tool batch that is not a cancel. */
  predicate IsToolEffect(e: Effect) {
    match e
    case ToolRequested(_) => true
    case ApprovalResolved(_, _) => true
    case ToolStarted(_) => true
    case ToolCompleted(_) => true
    case ToolFailed(_) => true
    case PlanUpdated(_) => true
    case Checkpoint(_) => true
    case Executed(_) => true
    case ToolReturned(_, _) => true
    case _ => false
  }

  /** The effects that may still come after a cancel of a batch. */
  predicate IsLateResult(e: Effect) {
    e.ToolCompleted? || e.ToolFailed? || e.ToolReturned?
  }

  predicate IsDelta(e: Effect) {
    e.ContentDelta? || e.ReasoningDelta? || e.CallStreamed?
  }

  function Next(stage: Stage, e: Effect): Stage {
    match stage
    case Start => if e.RunStarted? then Opened else Rejected
    case Opened => if e.UserItem? then Idle else Rejected
    case Idle =>
      if e.SteersDrained? then Ready
      else if e.CancelSeen? then Cancelling(e.reason, false)
      else if e == RunFailed("iteration_limit") then Over
      else Rejected
    case Ready => if e.SummaryAsked? then Asked else NextBeforeRequest(e)
    case Asked => NextBeforeRequest(e)
    case Compacted => if e.ModelCalled? then Requested(false) else Rejected
    case Requested(replacing) =>
      if e.StreamOpened? then Silent
      else if e.ProviderError? then if e.retryable && !replacing then Retrying(e.code, false) else Failing(e.code)
      else Rejected
    case Silent =>
      if e.ProviderError? && e.retryable then Retrying(e.code, true)
      else if e.UsageUpdated? then Silent
      else NextInStream(e)
    case Streaming => if e.UsageUpdated? then Streaming else NextInStream(e)
    case Retrying(code, broken) =>
      if e.ModelCalled? then Requested(broken)
      else if e.CancelSeen? then Cancelling(e.reason, false)
      else if e == RunFailed(code) then Over
      else Rejected
    case Failing(code) => if e == RunFailed(code) then Over else Rejected
    case Final => if e.SteersDrained? then if e.steers == [] then Done else Idle else Rejected
    case Done => if e.RunCompleted? then Over else Rejected
    case Batch =>
      if IsToolEffect(e) then Batch
      else if e.SteersDrained? then Ready
      else if e.CancelSeen? then Cancelling(e.reason, true)
      else if e == RunFailed("iteration_limit") then Over
      else Rejected
    case Cancelling(reason, inBatch) =>
      if inBatch && IsLateResult(e) then stage else if e == RunCancelled(reason) then Over else Rejected
    case Over => Rejected
    case Rejected => Rejected
  }

  function NextBeforeRequest(e: Effect): Stage {
    if e.SessionCompacted? then Compacted else if e.ModelCalled? then Requested(false) else Rejected
  }

  /** What may follow inside a stream, whether something has come back or not. */
  function NextInStream(e: Effect): Stage {
    if IsDelta(e) then Streaming
    else if e.ProviderError? then Failing(e.code)
    else if e.BudgetRefused? then Failing("run_budget_exceeded")
    else if e.AssistantItem? then if e.calls == [] then Final else Batch
    else if e.CancelSeen? then Cancelling(e.reason, false)
    else if e == RunFailed("run_budget_exceeded") then Over
    else Rejected
  }

  function StageFrom(stage: Stage, log: seq<Effect>): Stage {
    if log == [] then stage else Next(StageFrom(stage, log[..|log| - 1]), log[|log| - 1])
  }

  function StageOf(log: seq<Effect>): Stage {
    StageFrom(Start, log)
  }

  lemma StageAppend(stage: Stage, log: seq<Effect>, e: Effect)
    ensures StageFrom(stage, log + [e]) == Next(StageFrom(stage, log), e)
  {
    assert (log + [e])[..|log|] == log;
  }

  lemma {:induction false} StageConcat(stage: Stage, p: seq<Effect>, q: seq<Effect>)
    ensures StageFrom(stage, p + q) == StageFrom(StageFrom(stage, p), q)
  {
    hide Next;
    if q == [] {
      assert p + q == p;
    } else {
      var last := |q| - 1;
      assert p + q == (p + q[..last]) + [q[last]] && q == q[..last] + [q[last]];
      StageConcat(stage, p, q[..last]);
      StageAppend(stage, p + q[..last], q[last]);
    }
  }

  lemma {:induction false} ToolsStayInBatch(log: seq<Effect>)
    requires forall i :: 0 <= i < |log| ==> IsToolEffect(log[i])
    ensures StageFrom(Batch, log) == Batch
  {
    if log != [] {
      ToolsStayInBatch(log[..|log| - 1]);
    }
  }

  // ----- what the model sent and what the run made of it

  /**
    What was streamed and what was answered with, how many answers there are, whether usage was
    reported since the last one, and how many requests were sent since the last drain.
   */
  datatype Tally = Tally(
    streamedText: string, streamedCalls: seq<ToolCall>,
    answeredText: string, answeredCalls: seq<ToolCall>,
    answers: nat, metered: bool, attempts: nat)

  function Text(content: Option<string>): string {
    match content case None => "" case Some(text) => text
  }

  function Count(t: Tally, e: Effect): Tally {
    match e
    case ContentDelta(text) => t.(streamedText := t.streamedText + text)
    case CallStreamed(call) => t.(streamedCalls := t.streamedCalls + [call])
    case UsageUpdated(_) => t.(metered := true)
    case SteersDrained(_) => t.(attempts := 0)
    case ModelCalled(_) => t.(attempts := t.attempts + 1)
    case AssistantItem(content, calls) =>
      t.(answeredText := t.answeredText + Text(content), answeredCalls := t.answeredCalls + calls,
         answers := t.answers + 1, metered := false)
    case _ => t
  }

  function TallyOf(log: seq<Effect>): Tally {
    if log == [] then Tally("", [], "", [], 0, false, 0) else Count(TallyOf(log[..|log| - 1]), log[|log| - 1])
  }

  /** Between two turns everything streamed has become part of an answer. */
  predicate Balanced(t: Tally) {
    t.streamedText == t.answeredText && t.streamedCalls == t.answeredCalls && !t.metered
  }

  /** `content` and `calls` are exactly what was streamed since the last answer. */
  predicate IsAnswer(t: Tally, content: Option<string>, calls: seq<ToolCall>) {
    && content != Some("")
    && t.streamedText == t.answeredText + Text(content) && t.streamedCalls == t.answeredCalls + calls
  }

  /** How one effect moves the stage and the tally. */
  lemma Reads(log: seq<Effect>, e: Effect)
    ensures StageOf(log + [e]) == Next(StageOf(log), e)
    ensures TallyOf(log + [e]) == Count(TallyOf(log), e)
  {
    StageAppend(Start, log, e);
    assert (log + [e])[..|log|] == log;
  }

  /** A tool batch moves the stage as it does on its own, and not the tally. */
  lemma {:induction false} ReadsBatch(log: seq<Effect>, batch: seq<Effect>)
    requires forall i :: 0 <= i < |batch| ==> IsToolEffect(batch[i]) || batch[i].CancelSeen?
    ensures StageOf(log + batch) == StageFrom(StageOf(log), batch)
    ensures TallyOf(log + batch) == TallyOf(log)
  {
    hide Next, StageFrom, TallyOf, Count;
    StageConcat(Start, log, batch);
    if batch == [] {
      assert log + batch == log;
    } else {
      var last := |batch| - 1;
      ReadsBatch(log, batch[..last]);
      assert log + batch == log + batch[..last] + [batch[last]];
      Reads(log + batch[..last], batch[last]);
      NotCounted(TallyOf(log), batch[last]);
    }
  }

  lemma NotCounted(t: Tally, e: Effect)
    requires IsToolEffect(e) || e.CancelSeen?
    ensures Count(t, e) == t
  {
  }

  // ----- what acceptance means

  /** A prefix of an accepted log is not rejected and not over. */
  lemma {:induction false} BeforeTheEnd(log: seq<Effect>, n: nat)
    requires n < |log| && StageOf(log) != Rejected
    ensures StageOf(log[..n]) != Rejected && StageOf(log[..n]) != Over
    decreases |log|
  {
    var last := |log| - 1;
    assert StageOf(log) == Next(StageOf(log[..last]), log[last]);
    if n < last {
      BeforeTheEnd(log[..last], n);
      assert log[..last][..n] == log[..n];
    }
  }

  lemma StepAt(log: seq<Effect>, i: nat)
    requires i < |log|
    ensures StageOf(log[..i + 1]) == Next(StageOf(log[..i]), log[i])
  {
    assert log[..i + 1] == log[..i] + [log[i]];
    StageAppend(Start, log[..i], log[i]);
  }

  lemma AcceptedStep(log: seq<Effect>, i: nat)
    requires i < |log| && StageOf(log) == Over
    ensures StageOf(log[..i + 1]) == Next(StageOf(log[..i]), log[i])
    ensures Next(StageOf(log[..i]), log[i]) != Rejected
    ensures Next(StageOf(log[..i]), log[i]) == Over <==> i + 1 == |log|
  {
    hide Next;
    StepAt(log, i);
    if i + 1 < |log| {
      BeforeTheEnd(log, i + 1);
    } else {
      assert log[..i + 1] == log;
    }
  }

  /** The lifecycle: started first, then the user's item, and one terminal event, which is last. */
  lemma AcceptedLifecycle(log: seq<Effect>)
    requires StageOf(log) == Over
    ensures |log| >= 3 && log[0] == RunStarted && log[1].UserItem?
    ensures forall i :: 0 <= i < |log| ==> (IsTerminal(log[i]) <==> i == |log| - 1)
  {
    AcceptedStep(log, 0);
    assert log[..0] == [];
    AcceptedStep(log, 1);
    forall i | 0 <= i < |log|
      ensures IsTerminal(log[i]) <==> i == |log| - 1
    {
      AcceptedStep(log, i);
      OnlyTerminalsEnd(StageOf(log[..i]), log[i]);
    }
  }

  lemma OnlyTerminalsEnd(stage: Stage, e: Effect)
    requires Next(stage, e) != Rejected
    ensures Next(stage, e) == Over <==> IsTerminal(e)
  {
  }

  /** A request follows the drained steers, the question for a summary, a compaction, or a retryable
      error of a request that nothing had come back from; no request follows a rejected replacement. */
  lemma AcceptedRequests(log: seq<Effect>, i: nat)
    requires StageOf(log) == Over && i < |log| && log[i].ModelCalled?
    ensures i > 0
    ensures log[i - 1].SteersDrained? || log[i - 1].SummaryAsked? || log[i - 1].SessionCompacted?
      || (log[i - 1].ProviderError? && log[i - 1].retryable)
    ensures log[i - 1].ProviderError? ==> StageOf(log[..i - 1]) in {Requested(false), Silent}
  {
    AcceptedStep(log, i);
    AcceptedStep(log, 0);
    assert log[..0] == [];
    AcceptedStep(log, i - 1);
  }

  /** A stream opens right after its request. */
  lemma AcceptedStream(log: seq<Effect>, i: nat)
    requires StageOf(log) == Over && i < |log| && log[i].StreamOpened?
    ensures i > 0 && log[i - 1].ModelCalled?
  {
    AcceptedStep(log, i);
    AcceptedStep(log, 0);
    assert log[..0] == [];
    AcceptedStep(log, i - 1);
  }

  /** A run is cancelled exactly when it met a cancel, and for that reason. */
  lemma AcceptedCancel(log: seq<Effect>, i: nat)
    requires StageOf(log) == Over && i < |log| && log[i].CancelSeen?
    ensures log[|log| - 1] == RunCancelled(log[i].reason)
    ensures forall j :: i < j < |log| - 1 ==> IsLateResult(log[j])
  {
    AcceptedStep(log, i);
    var stage := StageOf(log[..i + 1]);
    assert stage.Cancelling? && stage.reason == log[i].reason;
    assert i + 1 < |log|;
    StaysCancelled(log, i + 1);
  }

  lemma {:induction false} StaysCancelled(log: seq<Effect>, i: nat)
    requires StageOf(log) == Over && i < |log| && StageOf(log[..i]).Cancelling?
    ensures log[|log| - 1] == RunCancelled(StageOf(log[..i]).reason)
    ensures forall j :: i <= j < |log| - 1 ==> IsLateResult(log[j])
    decreases |log| - i
  {
    AcceptedStep(log, i);
    if i + 1 < |log| {
      StaysCancelled(log, i + 1);
    }
  }

  /** Without a cancel a run is not cancelled. */
  lemma {:induction false} NotCancelled(log: seq<Effect>)
    requires forall i :: 0 <= i < |log| ==> !log[i].CancelSeen?
    ensures !StageOf(log).Cancelling?
    ensures log != [] && StageOf(log) == Over ==> !log[|log| - 1].RunCancelled?
  {
    if log != [] {
      NotCancelled(log[..|log| - 1]);
    }
  }

  /** A run that completes has answered without calls and found no more steers. */
  lemma AcceptedCompletion(log: seq<Effect>)
    requires StageOf(log) == Over && log[|log| - 1] == RunCompleted
    ensures |log| >= 3 && log[|log| - 2] == SteersDrained([])
    ensures log[|log| - 3].AssistantItem? && log[|log| - 3].calls == []
  {
    AcceptedLifecycle(log);
    AcceptedStep(log, |log| - 1);
    AcceptedStep(log, |log| - 2);
    AcceptedStep(log, |log| - 3);
  }
}
