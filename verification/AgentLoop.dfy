/**
  The agent loop: a history grows, is compacted, is sent to the model and gets the results of a
  tool batch, turn after turn, until the run completes, fails or is cancelled. The provider, the
  tools, the summarizer, steers, budget reservations and the cancel signal are arbitrary.
 */
module AgentLoop {
  import opened Basics
  import opened Options
  import opened Transcript
  import Compaction
  import CompactHistory
  import SummaryReserve
  import opened Journal
  import opened Protocol
  import opened StreamReading
  import opened HistoryRebuild
  import opened ToolBatch
  import opened BatchReplay
  import opened RunReplay
  import opened StoredSteers
  import opened Recall
  import opened RunLaws
  import opened Preparation

  // ----- the provider

  /** A stream is the finite list of items it will deliver. */
  datatype Opened = Stream(items: seq<StreamItem>) | Rejected(retryable: bool, code: string)

  function OpenedAs(answer: Opened): Effect {
    match answer
    case Stream(items) => StreamOpened(items)
    case Rejected(retryable, code) => ProviderError(retryable, code)
  }

  datatype Turn = Reply(content: string, calls: seq<ToolCall>, usageObserved: bool) | Halt(stop: Stop)

  /** Writes down an effect that changes neither the transcript nor the accounts. */
  method Note(e: Effect, sink: Sink, ghost limits: Limits, ghost start: seq<Message>, ghost base: seq<Effect>,
    ghost log0: seq<Effect>, ghost history: seq<Message>, ghost usage: Usage, ghost costComplete: bool)
    returns (ghost log: seq<Effect>)
    requires sink.log == base + log0 && Current(limits, start, log0, history, usage, costComplete)
    requires Unread(e) && !e.SessionCompacted? && Allowed(limits, start, log0, e)
    modifies sink
    ensures log == log0 + [e] && sink.log == base + log && Current(limits, start, log, history, usage, costComplete)
    ensures Requests(log) == Requests(log0) && TallyOf(log) == Count(TallyOf(log0), e)
    ensures StageOf(log) == Next(StageOf(log0), e) && ReadingOf(log) == ReadOn(ReadingOf(log0), e)
    ensures LastRequest(log) == LastRequest(log0) && Since(log) == Since(log0) + [e]
  {
    hide Running, Requests, Count, StageOf, TallyOf, Extends, Allowed, ReadingOf, Next, Since, LastRequest;
    EmitUnread(limits, start, log0, history, usage, costComplete, e);
    Reads(log0, e);
    ReadsOn(log0, e);
    NoRequest(e);
    SinceMore(log0, [e]);
    sink.Emit(e);
    log := log0 + [e];
  }

  /** A cancel that is seen ends the run for its reason. */
  method HeedCancel(reason: Option<string>, sink: Sink, ghost limits: Limits, ghost start: seq<Message>,
    ghost base: seq<Effect>, ghost log0: seq<Effect>, ghost history: seq<Message>, ghost usage: Usage,
    ghost costComplete: bool)
    returns (ghost log: seq<Effect>)
    requires sink.log == base + log0 && Current(limits, start, log0, history, usage, costComplete)
    requires MayCancel(StageOf(log0))
    modifies sink
    ensures sink.log == base + log && Current(limits, start, log, history, usage, costComplete)
    ensures reason == None ==> log == log0
    ensures reason.Some? ==>
      log == log0 + [CancelSeen(reason.value)] && EndsWith(limits, log, CancelledBy(reason.value))
    ensures Requests(log) == Requests(log0) && TallyOf(log) == TallyOf(log0)
  {
    hide Current, Requests, StageOf, TallyOf, EndsWith, Next;
    log := log0;
    if reason.Some? {
      log := Note(CancelSeen(reason.value), sink, limits, start, base, log, history, usage, costComplete);
      CancelMoves(StageOf(log0), reason.value);
      Endings(limits, log);
    }
  }

  lemma CancelMoves(stage: Stage, reason: string)
    requires MayCancel(stage)
    ensures Next(stage, CancelSeen(reason)) == Cancelling(reason, stage.Batch?)
  {
  }

  /** One request, and what the provider answers. */
  method Request(history: seq<Message>, sink: Sink, ghost limits: Limits, ghost start: seq<Message>,
    ghost base: seq<Effect>, ghost log0: seq<Effect>, ghost usage: Usage, ghost costComplete: bool)
    returns (answer: Opened, ghost log: seq<Effect>)
    requires sink.log == base + log0 && Running(limits, start, log0, history, usage, costComplete)
    requires MayRequest(limits, start, log0, history)
    requires CanRequest(StageOf(log0)) || StageOf(log0).Retrying?
    modifies sink
    ensures log == log0 + [ModelCalled(history), OpenedAs(answer)] && sink.log == base + log
    ensures Current(limits, start, log, history, usage, costComplete)
    ensures |Requests(log)| == |Requests(log0)| + 1
    ensures TallyOf(log) == TallyOf(log0).(attempts := TallyOf(log0).attempts + 1)
    ensures var replacing := StageOf(log0).Retrying? && StageOf(log0).broken;
      match answer
      case Stream(items) => StageOf(log) == Silent && ReadingOf(log) == Inside(items, [])
      case Rejected(retryable, code) =>
        && StageOf(log) == (if retryable && !replacing then Retrying(code, false) else Failing(code))
        && ReadingOf(log) == NoStream
    ensures LastRequest(log) == Some(history) && SpokenIn(Since(log)) == []
  {
    hide Running, Requests, StageOf, TallyOf, MayRequest, ReadingOf, Extends, Next, Since, LastRequest, SpokenIn,
      Allowed;
    CallModel(limits, start, log0, history, usage, costComplete);
    Reads(log0, ModelCalled(history));
    ReadsOn(log0, ModelCalled(history));
    sink.Emit(ModelCalled(history));
    ghost var sent := log0 + [ModelCalled(history)];
    RequestExtends(start, log0, history);
    RequestMoves(StageOf(log0), history);
    answer := *;
    AnswerIsAllowed(limits, start, sent, OpenedAs(answer));
    log := Note(OpenedAs(answer), sink, limits, start, base, sent, history, usage, costComplete);
    AnswerMoves(StageOf(sent), answer);
    assert log == log0 + [ModelCalled(history), OpenedAs(answer)];
    QuietAnswer(Since(sent), OpenedAs(answer));
  }

  lemma RequestMoves(stage: Stage, messages: seq<Message>)
    requires CanRequest(stage) || stage.Retrying?
    ensures Next(stage, ModelCalled(messages)) == Requested(stage.Retrying? && stage.broken)
  {
  }

  lemma AnswerMoves(stage: Stage, answer: Opened)
    requires stage.Requested?
    ensures Next(stage, OpenedAs(answer)) == match answer
      case Stream(_) => Silent
      case Rejected(retryable, code) => if retryable && !stage.replacing then Retrying(code, false) else Failing(code)
  {
  }

  lemma AnswerIsAllowed(limits: Limits, start: seq<Message>, log: seq<Effect>, e: Effect)
    requires e.StreamOpened? || (e.ProviderError? && ReadingOf(log) == NoStream)
    ensures Allowed(limits, start, log, e)
  {
  }

  lemma QuietAnswer(since: seq<Effect>, e: Effect)
    requires SpokenIn(since) == [] && (e.StreamOpened? || e.ProviderError?)
    ensures SpokenIn(since + [e]) == []
  {
    ReadAppend(since, e);
  }

  /** Sends the request; a rejected one is sent again while it is retryable and retries are left. */
  method OpenStream(history: seq<Message>, limits: Limits, sink: Sink, ghost start: seq<Message>,
    ghost base: seq<Effect>, ghost log0: seq<Effect>, ghost usage: Usage, ghost costComplete: bool)
    returns (stop: Option<Stop>, items: seq<StreamItem>, attempt: nat, ghost log: seq<Effect>)
    requires sink.log == base + log0 && Running(limits, start, log0, history, usage, costComplete)
    requires Renews(limits, start, log0, history) && CanRequest(StageOf(log0)) && TallyOf(log0).attempts == 0
    modifies sink
    ensures sink.log == base + log && log0 <= log && Current(limits, start, log, history, usage, costComplete)
    ensures attempt <= limits.maxRetries && |Requests(log)| == |Requests(log0)| + 1 + attempt
    ensures TallyOf(log) == TallyOf(log0).(attempts := attempt + 1)
    ensures match stop
      case None => StageOf(log) == Silent && ReadingOf(log) == Inside(items, []) && Sent(log, history)
      case Some(why) => EndsWith(limits, log, why) && why != Finished
  {
    hide Running, Requests, StageOf, TallyOf, Renews, EndsWith, Next, ReadingOf, Extends, LastRequest, Since,
      SpokenIn;
    stop, items, attempt, log := None, [], 0, log0;
    FirstRequest(limits, start, log0, history);
    while true
      invariant sink.log == base + log && log0 <= log && Running(limits, start, log, history, usage, costComplete)
      invariant attempt <= limits.maxRetries && |Requests(log)| == |Requests(log0)| + attempt
      invariant TallyOf(log) == TallyOf(log0).(attempts := attempt)
      invariant MayRequest(limits, start, log, history)
      invariant CanRequest(StageOf(log)) || (StageOf(log).Retrying? && !StageOf(log).broken)
      decreases limits.maxRetries - attempt
    {
      var answer;
      answer, log := Request(history, sink, limits, start, base, log, usage, costComplete);
      match answer
      case Stream(delivered) =>
        items := delivered;
        return;
      case Rejected(retryable, code) =>
        Endings(limits, log);
        if !(retryable && attempt < limits.maxRetries) {
          stop := Some(FailedWith(code));
          return;
        }
        var cancelled: Option<string> := *;
        log := HeedCancel(cancelled, sink, limits, start, base, log, history, usage, costComplete);
        if cancelled.Some? {
          stop := Some(CancelledBy(cancelled.value));
          return;
        }
        attempt := attempt + 1;
        NextAttempt(limits, start, log, history);
    }
  }

  /** The last request held this, and nothing was said since. */
  ghost predicate Sent(log: seq<Effect>, history: seq<Message>) {
    LastRequest(log) == Some(history) && SpokenIn(Since(log)) == []
  }

  lemma FirstRequest(limits: Limits, start: seq<Message>, log: seq<Effect>, history: seq<Message>)
    requires Renews(limits, start, log, history) && CanRequest(StageOf(log))
    ensures MayRequest(limits, start, log, history)
  {
    hide StageOf, Renews;
  }

  lemma NextAttempt(limits: Limits, start: seq<Message>, log: seq<Effect>, history: seq<Message>)
    requires Sent(log, history) && StageOf(log).Retrying? && TallyOf(log).attempts <= limits.maxRetries
    ensures MayRequest(limits, start, log, history)
  {
    hide StageOf, TallyOf, LastRequest, Since, SpokenIn;
  }

  /** Adds one usage report to the totals, if the budget takes it. */
  method Meter(u: Usage, taken: bool, usage0: Usage, costComplete0: bool, sink: Sink, ghost limits: Limits,
    ghost start: seq<Message>, ghost base: seq<Effect>, ghost log0: seq<Effect>, ghost history: seq<Message>)
    returns (usage: Usage, costComplete: bool, ghost log: seq<Effect>)
    requires sink.log == base + log0 && Current(limits, start, log0, history, usage0, costComplete0)
    modifies sink
    ensures sink.log == base + log && Current(limits, start, log, history, usage, costComplete)
    ensures log == log0 + [if taken then UsageUpdated(u) else BudgetRefused]
    ensures Requests(log) == Requests(log0)
  {
    hide Running, Requests, Extends;
    usage, costComplete := usage0, costComplete0;
    if !taken {
      log := Note(BudgetRefused, sink, limits, start, base, log0, history, usage, costComplete);
      return;
    }
    ReportUsage(limits, start, log0, history, usage, costComplete, u);
    costComplete := costComplete && u.cost.Some?;
    usage := AddUsage(usage, u);
    if !costComplete {
      usage := usage.(cost := None);
    }
    sink.Emit(UsageUpdated(u));
    log := log0 + [UsageUpdated(u)];
  }

  /** An error in the stream: the stream is replaced once, or the run ends. */
  method StreamBroke(retry: bool, retryable: bool, code: string, history: seq<Message>, limits: Limits, sink: Sink,
    ghost start: seq<Message>, ghost base: seq<Effect>, ghost log0: seq<Effect>, ghost usage: Usage,
    ghost costComplete: bool)
    returns (stop: Option<Stop>, items: seq<StreamItem>, ghost log: seq<Effect>)
    requires sink.log == base + log0 && Current(limits, start, log0, history, usage, costComplete)
    requires Sent(log0, history) && InStream(StageOf(log0)) && FailsStream(ReadingOf(log0), retryable, code)
    requires retry <==> retryable && StageOf(log0) == Silent && TallyOf(log0).attempts <= limits.maxRetries
    requires TallyOf(log0).attempts <= 1 + limits.maxRetries
    modifies sink
    ensures sink.log == base + log && log0 <= log && Current(limits, start, log, history, usage, costComplete)
    ensures |Requests(log)| <= |Requests(log0)| + (if retry then 1 else 0)
    ensures TallyOf(log) == TallyOf(log0).(attempts := TallyOf(log).attempts)
    ensures match stop
      case None =>
        && retry && StageOf(log) == Silent && ReadingOf(log) == Inside(items, []) && Sent(log, history)
        && TallyOf(log).attempts == TallyOf(log0).attempts + 1
      case Some(why) => EndsWith(limits, log, why) && why != Finished
  {
    hide Running, Requests, StageOf, TallyOf, EndsWith, Next, ReadingOf, Extends, LastRequest, Since, SpokenIn,
      FailsStream;
    stop, items := None, [];
    ErrorIsAllowed(limits, start, log0, retryable, code);
    log := Note(ProviderError(retryable, code), sink, limits, start, base, log0, history, usage, costComplete);
    ErrorMoves(StageOf(log0), retryable, code);
    StillSent(log0, log, history, ProviderError(retryable, code));
    Endings(limits, log);
    if !retry {
      stop := Some(FailedWith(code));
      return;
    }
    var interrupted: Option<string> := *;
    log := HeedCancel(interrupted, sink, limits, start, base, log, history, usage, costComplete);
    if interrupted.Some? {
      stop := Some(CancelledBy(interrupted.value));
      return;
    }
    NextAttempt(limits, start, log, history);
    var answer;
    answer, log := Request(history, sink, limits, start, base, log, usage, costComplete);
    Endings(limits, log);
    match answer
    case Stream(delivered) => items := delivered;
    case Rejected(_, rejected) => stop := Some(FailedWith(rejected));
  }

  lemma ErrorIsAllowed(limits: Limits, start: seq<Message>, log: seq<Effect>, retryable: bool, code: string)
    requires FailsStream(ReadingOf(log), retryable, code)
    ensures Allowed(limits, start, log, ProviderError(retryable, code))
  {
  }

  lemma ErrorMoves(stage: Stage, retryable: bool, code: string)
    requires InStream(stage)
    ensures Next(stage, ProviderError(retryable, code)) ==
      if retryable && stage == Silent then Retrying(code, true) else Failing(code)
  {
  }

  lemma StillSent(before: seq<Effect>, after: seq<Effect>, history: seq<Message>, e: Effect)
    requires Sent(before, history) && Spoken(e) == []
    requires LastRequest(after) == LastRequest(before) && Since(after) == Since(before) + [e]
    ensures Sent(after, history)
  {
    hide LastRequest, Since;
    ReadAppend(Since(before), e);
  }

  /** What was put together from a stream so far, and whether anything came and was metered. */
  datatype Progress = Progress(content: string, calls: seq<ToolCall>, progressed: bool, metered: bool)

  /** The first `next` items were read, written down and taken in. */
  ghost predicate Consumed(log: seq<Effect>, items: seq<StreamItem>, next: nat, p: Progress) {
    && next <= |items| && Open(items[..next])
    && ReadingOf(log) == Inside(items, NotesOf(items[..next]))
    && p.content == TextIn(items[..next]) && p.calls == CallsIn(items[..next])
    && (!p.progressed ==> p.content == "" && p.calls == [])
    && StageOf(log) == (if p.progressed then Streaming else Silent)
    && Collected(log, p.content, p.calls) && TallyOf(log).metered == p.metered
  }

  lemma NothingConsumed(log: seq<Effect>, items: seq<StreamItem>, metered: bool)
    requires StageOf(log) == Silent && ReadingOf(log) == Inside(items, []) && Collected(log, "", [])
    requires TallyOf(log).metered == metered
    ensures Consumed(log, items, 0, Progress("", [], false, metered))
  {
    hide StageOf, ReadingOf, TallyOf;
    StreamReading.NothingRead(items);
  }

  /** What an item adds. */
  ghost function Advanced(p: Progress, item: StreamItem): Progress {
    match item
    case Content(text) => p.(content := p.content + text, progressed := true)
    case Reasoning(_) => p.(progressed := true)
    case Call(call) => p.(calls := p.calls + [call], progressed := true)
    case UsageReport(_) => p.(metered := true)
    case _ => p
  }

  lemma ConsumedOneMore(log: seq<Effect>, items: seq<StreamItem>, next: nat, p: Progress)
    requires Consumed(log, items, next, p) && next < |items| && !EndsStream(items[next])
    ensures |NoteOf(items[next])| == 1
    ensures Consumed(log + NoteOf(items[next]), items, next + 1, Advanced(p, items[next]))
    ensures TallyOf(log + NoteOf(items[next])).attempts == TallyOf(log).attempts
    ensures TallyOf(log + NoteOf(items[next])).answers == TallyOf(log).answers
  {
    hide StageOf, ReadingOf, TallyOf, NotesOf, TextIn, CallsIn, Open, NoteOf, Next, Count, Advanced;
    var item := items[next];
    ItemMoves(item, StageOf(log), TallyOf(log), ReadingOf(log));
    var e := NoteOf(item)[0];
    assert NoteOf(item) == [e];
    OneMoreItem(items, next);
    ReadsOn(log, e);
    Reads(log, e);
    ItemAdvances(p, item);
  }

  /** How an item moves what is read off the log. */
  lemma ItemMoves(item: StreamItem, stage: Stage, t: Tally, r: Reading)
    requires !EndsStream(item) && InStream(stage) && r.Inside?
    ensures |NoteOf(item)| == 1
    ensures var e := NoteOf(item)[0];
      && Next(stage, e) == (if item.UsageReport? then stage else Streaming)
      && ReadOn(r, e) == Inside(r.items, r.noted + NoteOf(item))
      && Count(t, e) == match item
         case Content(text) => t.(streamedText := t.streamedText + text)
         case Call(call) => t.(streamedCalls := t.streamedCalls + [call])
         case UsageReport(_) => t.(metered := true)
         case _ => t
  {
  }

  lemma ItemAdvances(p: Progress, item: StreamItem)
    requires !EndsStream(item)
    ensures var q := Advanced(p, item);
      && q.content == p.content + (match item case Content(text) => text case _ => "")
      && q.calls == p.calls + (match item case Call(call) => [call] case _ => [])
      && q.progressed == (p.progressed || !item.UsageReport?) && q.metered == (p.metered || item.UsageReport?)
  {
  }

  /** Reads one item that does not end the stream. `taken` says what the budget answers to a report. */
  method ReadItem(item: StreamItem, taken: bool, ghost items: seq<StreamItem>, ghost next: nat, p0: Progress,
    usage0: Usage, costComplete0: bool, sink: Sink, ghost limits: Limits, ghost start: seq<Message>,
    ghost base: seq<Effect>, ghost log0: seq<Effect>, ghost history: seq<Message>)
    returns (p: Progress, usage: Usage, costComplete: bool, ghost log: seq<Effect>)
    requires sink.log == base + log0 && Current(limits, start, log0, history, usage0, costComplete0)
    requires Consumed(log0, items, next, p0) && next < |items| && item == items[next] && !EndsStream(item)
    modifies sink
    ensures sink.log == base + log && Current(limits, start, log, history, usage, costComplete)
    ensures log == log0 + (if item.UsageReport? && !taken then [BudgetRefused] else NoteOf(item))
    ensures Requests(log) == Requests(log0) && p == Advanced(p0, item)
  {
    hide Current, Requests, Consumed, Allowed;
    p, usage, costComplete := p0, usage0, costComplete0;
    match item
    case Content(text) =>
      p := p.(progressed := true, content := p.content + text);
      DeltasAreAllowed(limits, start, log0, ContentDelta(text));
      log := Note(ContentDelta(text), sink, limits, start, base, log0, history, usage, costComplete);
    case Reasoning(text) =>
      p := p.(progressed := true);
      DeltasAreAllowed(limits, start, log0, ReasoningDelta(text));
      log := Note(ReasoningDelta(text), sink, limits, start, base, log0, history, usage, costComplete);
    case Call(call) =>
      p := p.(progressed := true, calls := p.calls + [call]);
      DeltasAreAllowed(limits, start, log0, CallStreamed(call));
      log := Note(CallStreamed(call), sink, limits, start, base, log0, history, usage, costComplete);
    case UsageReport(u) =>
      p := p.(metered := true);
      usage, costComplete, log := Meter(u, taken, usage, costComplete, sink, limits, start, base, log0, history);
  }

  lemma DeltasAreAllowed(limits: Limits, start: seq<Message>, log: seq<Effect>, e: Effect)
    requires IsDelta(e)
    ensures Allowed(limits, start, log, e)
  {
  }

  lemma RefusalEnds(limits: Limits, log: seq<Effect>)
    requires InStream(StageOf(log))
    ensures EndsWith(limits, log + [BudgetRefused], FailedWith("run_budget_exceeded"))
    ensures TallyOf(log + [BudgetRefused]) == TallyOf(log)
  {
    hide StageOf, TallyOf, FailureIsDue;
    Reads(log, BudgetRefused);
    Endings(limits, log + [BudgetRefused]);
  }

  /** The answer's content, when there is any. */
  function ContentOf(text: string): Option<string> {
    if text == "" then None else Some(text)
  }

  /** Reads the stream to its end. A retryable error replaces it only before any progress. */
  method Converse(history: seq<Message>, limits: Limits, usage0: Usage, costComplete0: bool, sink: Sink,
    ghost start: seq<Message>, ghost base: seq<Effect>, ghost log0: seq<Effect>)
    returns (turn: Turn, usage: Usage, costComplete: bool, ghost log: seq<Effect>)
    requires sink.log == base + log0 && Running(limits, start, log0, history, usage0, costComplete0)
    requires Renews(limits, start, log0, history) && CanRequest(StageOf(log0)) && Balanced(TallyOf(log0))
    requires TallyOf(log0).attempts == 0
    modifies sink
    ensures sink.log == base + log && log0 <= log && Current(limits, start, log, history, usage, costComplete)
    ensures |Requests(log)| <= |Requests(log0)| + 1 + limits.maxRetries
    ensures TallyOf(log).answers == TallyOf(log0).answers
    ensures match turn
      case Halt(stop) => EndsWith(limits, log, stop) && stop != Finished
      case Reply(content, calls, metered) =>
        && InStream(StageOf(log)) && Collected(log, content, calls) && metered == TallyOf(log).metered
        && AnswersStream(ReadingOf(log), ContentOf(content), calls)
  {
    hide Current, Running, Requests, StageOf, TallyOf, Renews, EndsWith, Next, ReadingOf, Consumed, Advanced, Sent,
      AnswersStream, Collected;
    usage, costComplete := usage0, costComplete0;
    var stop, items, attempt;
    stop, items, attempt, log := OpenStream(history, limits, sink, start, base, log0, usage, costComplete);
    if stop.Some? {
      return Halt(stop.value), usage, costComplete, log;
    }
    var p, next := Progress("", [], false, false), 0;
    NothingCollected(log0, log);
    NothingConsumed(log, items, false);
    while next < |items| && !items[next].Finish?
      invariant 0 <= next <= |items| && Consumed(log, items, next, p) && Sent(log, history)
      invariant sink.log == base + log && log0 <= log && Current(limits, start, log, history, usage, costComplete)
      invariant attempt <= limits.maxRetries && |Requests(log)| <= |Requests(log0)| + 1 + attempt
      invariant TallyOf(log).answers == TallyOf(log0).answers && TallyOf(log).attempts == attempt + 1
      decreases limits.maxRetries - attempt, |items| - next
    {
      ConsumedIsInStream(log, items, next, p);
      var cancelled: Option<string> := *;
      log := HeedCancel(cancelled, sink, limits, start, base, log, history, usage, costComplete);
      if cancelled.Some? {
        return Halt(CancelledBy(cancelled.value)), usage, costComplete, log;
      }
      ghost var before := log;
      var item := items[next];
      if item.StreamError? {
        var retry := item.retryable && !p.progressed && attempt < limits.maxRetries;
        ErrorConsumed(log, items, next, p);
        attempt := if retry then attempt + 1 else attempt;
        stop, items, log := StreamBroke(retry, item.retryable, item.code, history, limits, sink, start, base, log,
          usage, costComplete);
        if stop.Some? {
          return Halt(stop.value), usage, costComplete, log;
        }
        StillCollected(before, log);
        NothingConsumed(log, items, p.metered);
        p, next := Progress("", [], false, p.metered), 0;
      } else {
        var taken: bool := *;
        ConsumedOneMore(log, items, next, p);
        p, usage, costComplete, log :=
          ReadItem(item, taken, items, next, p, usage, costComplete, sink, limits, start, base, log, history);
        if item.UsageReport? && !taken {
          RefusalEnds(limits, before);
          return Halt(FailedWith("run_budget_exceeded")), usage, costComplete, log;
        }
        SentOneMore(before, item, history);
        next := next + 1;
      }
    }
    StreamIsRead(log, items, next, p);
    turn := Reply(p.content, p.calls, p.metered);
  }

  lemma NothingCollected(log0: seq<Effect>, log: seq<Effect>)
    requires Balanced(TallyOf(log0)) && TallyOf(log) == TallyOf(log0).(attempts := TallyOf(log).attempts)
    ensures Collected(log, "", []) && !TallyOf(log).metered
  {
    hide TallyOf;
  }

  /** A stream that broke before anything came leaves nothing to collect. */
  lemma StillCollected(before: seq<Effect>, log: seq<Effect>)
    requires Collected(before, "", []) && TallyOf(log) == TallyOf(before).(attempts := TallyOf(log).attempts)
    ensures Collected(log, "", []) && TallyOf(log).metered == TallyOf(before).metered
  {
    hide TallyOf;
  }

  lemma ConsumedIsInStream(log: seq<Effect>, items: seq<StreamItem>, next: nat, p: Progress)
    requires Consumed(log, items, next, p)
    ensures InStream(StageOf(log)) && MayCancel(StageOf(log))
  {
    hide StageOf, ReadingOf, TallyOf;
  }

  lemma ErrorConsumed(log: seq<Effect>, items: seq<StreamItem>, next: nat, p: Progress)
    requires Consumed(log, items, next, p) && next < |items| && items[next].StreamError?
    ensures FailsStream(ReadingOf(log), items[next].retryable, items[next].code)
    ensures InStream(StageOf(log)) && (StageOf(log) == Silent <==> !p.progressed)
    ensures !p.progressed ==> Collected(log, "", [])
    ensures TallyOf(log).metered == p.metered
  {
    hide StageOf, ReadingOf, TallyOf, NotesOf, TextIn, CallsIn, Open;
    EndIs(items, next);
  }

  lemma StreamIsRead(log: seq<Effect>, items: seq<StreamItem>, next: nat, p: Progress)
    requires Consumed(log, items, next, p) && (next < |items| ==> items[next].Finish?)
    ensures AnswersStream(ReadingOf(log), ContentOf(p.content), p.calls)
    ensures InStream(StageOf(log)) && Collected(log, p.content, p.calls) && TallyOf(log).metered == p.metered
  {
    hide StageOf, ReadingOf, TallyOf, NotesOf, TextIn, CallsIn, Open;
    EndIs(items, next);
  }

  lemma SentOneMore(log: seq<Effect>, item: StreamItem, history: seq<Message>)
    requires Sent(log, history) && |NoteOf(item)| == 1
    ensures Sent(log + NoteOf(item), history)
  {
    hide LastRequest, Since, SpokenIn;
    var e := NoteOf(item)[0];
    assert NoteOf(item) == [e];
    NoRequest(e);
    SinceMore(log, [e]);
    StillSent(log, log + [e], history, e);
  }

  // ----- one turn

  /** The user messages submitted while the run is active are folded in, in order. */
  method DrainSteers(history0: seq<Message>, sink: Sink, ghost limits: Limits, ghost start: seq<Message>,
    ghost base: seq<Effect>, ghost log0: seq<Effect>, ghost usage: Usage, ghost costComplete: bool)
    returns (steers: seq<Message>, history: seq<Message>, ghost submitted: seq<(string, seq<Part>)>,
      ghost log: seq<Effect>)
    requires sink.log == base + log0 && Current(limits, start, log0, history0, usage, costComplete)
    modifies sink
    ensures sink.log == base + log && log == log0 + [SteersDrained(steers)] && history == history0 + steers
    ensures |steers| == |submitted| && forall i :: 0 <= i < |steers| ==>
      steers[i] == Message(User, Some(submitted[i].0), submitted[i].1, [], None, None)
    ensures Current(limits, start, log, history, usage, costComplete) && Requests(log) == Requests(log0)
    ensures StageOf(log) == Next(StageOf(log0), SteersDrained(steers))
    ensures TallyOf(log) == TallyOf(log0).(attempts := 0) && LastAsk(log) == None
  {
    hide Current, Requests, Next, StageOf, TallyOf;
    var waiting: seq<(string, seq<Part>)> := *;
    submitted := waiting;
    steers := seq(|waiting|, i requires 0 <= i < |waiting| =>
      TextMessage(User, waiting[i].0).(parts := waiting[i].1));
    FoldSteers(limits, start, log0, history0, usage, costComplete, steers);
    Reads(log0, SteersDrained(steers));
    sink.Emit(SteersDrained(steers));
    history, log := history0 + steers, log0 + [SteersDrained(steers)];
    AskAfter(log0, SteersDrained(steers));
  }

  lemma AskAfter(log: seq<Effect>, e: Effect)
    ensures LastAsk(log + [e]) ==
      if e.SummaryAsked? then Some(e) else if e.SessionCompacted? then LastAsk(log) else None
  {
    assert (log + [e])[..|log|] == log;
  }

  /** 85 percent of the window, in 64-bit arithmetic. */
  function CompactionTrigger(contextTokens: u64): nat {
    (if contextTokens * 85 <= U64_MAX then contextTokens * 85 else U64_MAX) / 100
  }

  /** The sink summarises what is about to be dropped, or does not. */
  method AskSummary(candidates: seq<Message>, keep: nat, history: seq<Message>, sink: Sink, ghost limits: Limits,
    ghost start: seq<Message>, ghost base: seq<Effect>, ghost log0: seq<Effect>, ghost usage: Usage,
    ghost costComplete: bool)
    returns (summary: Option<string>, ghost log: seq<Effect>)
    requires sink.log == base + log0 && Current(limits, start, log0, history, usage, costComplete)
    requires IsQuestion(limits, history, candidates, keep)
    modifies sink
    ensures log == log0 + [SummaryAsked(candidates, keep, summary)] && sink.log == base + log
    ensures Current(limits, start, log, history, usage, costComplete)
    ensures Requests(log) == Requests(log0)
    ensures StageOf(log) == Next(StageOf(log0), SummaryAsked(candidates, keep, summary))
    ensures TallyOf(log) == TallyOf(log0) && LastAsk(log).Some? && Answered(log) == summary
  {
    hide Running, Requests, Next, StageOf, TallyOf, IsQuestion, Extends, ReadingOf;
    summary := *;
    ghost var e := SummaryAsked(candidates, keep, summary);
    assert AskIsDue(limits, start, log0, candidates, keep);
    log := Note(SummaryAsked(candidates, keep, summary), sink, limits, start, base, log0, history, usage, costComplete);
    AskAfter(log0, e);
  }

  /** Compacts before the request, with a summary when there is something to summarise. */
  method CompactStep(history0: seq<Message>, limits: Limits, sink: Sink, ghost start: seq<Message>,
    ghost base: seq<Effect>, ghost log0: seq<Effect>, ghost usage: Usage, ghost costComplete: bool)
    returns (history: seq<Message>, ghost log: seq<Effect>)
    requires sink.log == base + log0 && Current(limits, start, log0, history0, usage, costComplete)
    requires StageOf(log0) == Ready && LastAsk(log0) == None
    modifies sink
    ensures sink.log == base + log && log0 <= log && Running(limits, start, log, history, usage, costComplete)
    ensures Requests(log) == Requests(log0) && Renews(limits, start, log, history)
    ensures CanRequest(StageOf(log)) && TallyOf(log) == TallyOf(log0)
  {
    hide Running, Extends, Requests, Compaction.Compact, Compaction.DropCandidates, Compaction.NonSystem, StageOf,
      TallyOf, LastAsk, AsCompacted, Compaction.Estimate;
    var summary: Option<string> := None;
    log := log0;
    if Compaction.Estimate(history0) > CompactionTrigger(limits.contextTokens) {
      var candidates := CompactHistory.SummaryDropCandidates(history0, limits.contextTokens);
      if candidates != [] {
        var keep := Monus(|Compaction.NonSystem(history0)|, |Compaction.NonSystem(candidates)|);
        summary, log :=
          AskSummary(candidates, keep, history0, sink, limits, start, base, log, usage, costComplete);
      }
    }
    assert Answered(log) == summary;
    var compacted := CompactHistory.CompactMessages(history0, limits.contextTokens, summary);
    AfterCompaction(limits, start, log, history0, usage, costComplete, summary);
    history := compacted.messages;
    ghost var asked := log;
    if compacted.dropped > 0 {
      var e := SessionCompacted(|compacted.messages|, compacted.summary, None);
      Reads(log, e);
      AskAfter(log, e);
      sink.Emit(e);
      log := log + [e];
    }
    CompactedAsDue(limits, asked, log, history0, summary);
  }

  /** What was asked and reported is what a compaction with this summary has to. */
  lemma CompactedAsDue(limits: Limits, asked: seq<Effect>, log: seq<Effect>, history: seq<Message>,
    summary: Option<string>)
    requires StageOf(asked).Ready? || StageOf(asked).Asked?
    requires LastAsk(asked).Some? <==> SummaryIsDue(limits, history)
    requires Answered(asked) == summary == Answered(log) && LastAsk(log) == LastAsk(asked)
    requires var r := Compaction.Compact(history, limits.contextTokens, summary);
      StageOf(log) == if r.dropped > 0 then Compacted else StageOf(asked)
    ensures AsCompacted(limits, log, history, Compaction.Compact(history, limits.contextTokens, summary).messages)
  {
    hide StageOf, LastAsk, Compaction.Compact, SummaryIsDue;
  }

  /** The last message is the assistant's and asks for nothing. */
  ghost predicate EndsWithAnswer(history: seq<Message>) {
    history != [] && history[|history| - 1].role == Assistant && !HasCalls(history[|history| - 1])
  }

  /** An answer and its effect on the log, once the limits are checked. */
  lemma AnswerReads(log: seq<Effect>, content: Option<string>, calls: seq<ToolCall>)
    requires InStream(StageOf(log)) && IsAnswer(TallyOf(log), content, calls)
    ensures var next := log + [AssistantItem(content, calls)];
      && StageOf(next) == (if calls == [] then Final else Batch)
      && Balanced(TallyOf(next)) && TallyOf(next).answers == TallyOf(log).answers + 1
  {
    hide StageOf, TallyOf;
    Reads(log, AssistantItem(content, calls));
  }

  /**
    One iteration of the loop, none of which starts once the cancel signal is set: the run goes on
    only after a turn whose calls were all answered, or after a final answer that a steer overtook.
   */
  method RunTurn(iteration: nat, signal: Option<string>, history0: seq<Message>, limits: Limits, usage0: Usage,
    costComplete0: bool, sink: Sink, ghost start: seq<Message>, ghost base: seq<Effect>, ghost log0: seq<Effect>)
    returns (stop: Option<Stop>, history: seq<Message>, usage: Usage, costComplete: bool, ghost log: seq<Effect>)
    requires 1 <= iteration <= limits.maxIterations
    requires sink.log == base + log0 && Current(limits, start, log0, history0, usage0, costComplete0)
    requires BetweenTurns(log0, iteration - 1)
    modifies sink
    ensures sink.log == base + log && log0 <= log && Current(limits, start, log, history, usage, costComplete)
    ensures |Requests(log)| <= |Requests(log0)| + 1 + limits.maxRetries
    ensures iteration == limits.maxIterations ==> stop.Some?
    ensures stop == None ==> BetweenTurns(log, iteration)
    ensures stop.Some? ==> EndsWith(limits, log, stop.value)
    ensures stop == Some(Finished) ==> !LimitsExceeded(limits, usage) && EndsWithAnswer(history)
    ensures signal.Some? ==> log == log0 + [CancelSeen(signal.value)] && stop == Some(CancelledBy(signal.value))
    ensures iteration - 1 <= TallyOf(log).answers <= if signal == None then iteration else iteration - 1
  {
    hide Current, Running, Requests, BatchTrace, StageOf, TallyOf, Renews, EndsWith, Next, BetweenTurns,
      AnswersStream, ReadingOf, Collected, Overdrawn, LastAsk;
    TurnMoves(log0, iteration - 1);
    history, usage, costComplete, log := history0, usage0, costComplete0, log0;
    log := HeedCancel(signal, sink, limits, start, base, log, history, usage, costComplete);
    if signal.Some? {
      return Some(CancelledBy(signal.value)), history, usage, costComplete, log;
    }
    var steers;
    ghost var submitted;
    steers, history, submitted, log := DrainSteers(history, sink, limits, start, base, log, usage, costComplete);
    history, log := CompactStep(history, limits, sink, start, base, log, usage, costComplete);
    var turn;
    turn, usage, costComplete, log := Converse(history, limits, usage, costComplete, sink, start, base, log);
    if turn.Halt? {
      return Some(turn.stop), history, usage, costComplete, log;
    }
    OverdrawnExactly(limits, start, log, history, usage, costComplete);
    if (!turn.usageObserved && (limits.maxTotalTokens.Some? || limits.maxCost.Some?)) || LimitsExceeded(limits, usage) {
      ReplyIsRead(ReadingOf(log), ContentOf(turn.content), turn.calls);
      BudgetEnds(limits, log);
      return Some(FailedWith("run_budget_exceeded")), history, usage, costComplete, log;
    }
    stop, history, log :=
      Answer(iteration, history, turn.content, turn.calls, limits, usage, costComplete, sink, start, base, log);
  }

  lemma ReplyIsRead(r: Reading, content: Option<string>, calls: seq<ToolCall>)
    requires AnswersStream(r, content, calls)
    ensures ReadToEnd(r)
  {
  }

  lemma OverdrawnExactly(limits: Limits, start: seq<Message>, log: seq<Effect>, history: seq<Message>, usage: Usage,
    costComplete: bool)
    requires Current(limits, start, log, history, usage, costComplete)
    ensures Overdrawn(limits, log) <==>
      || LimitsExceeded(limits, usage)
      || ((limits.maxTotalTokens.Some? || limits.maxCost.Some?) && !TallyOf(log).metered)
  {
    hide Running, TallyOf;
    UsageIsTotal(limits, start, log, history, usage, costComplete);
    ExceededExactly(limits, usage);
  }

  /** The answer of a turn: final when it asks for nothing, and otherwise followed by its batch. */
  method Answer(iteration: nat, history0: seq<Message>, content: string, calls: seq<ToolCall>, limits: Limits,
    ghost usage: Usage, ghost costComplete: bool, sink: Sink, ghost start: seq<Message>, ghost base: seq<Effect>,
    ghost log0: seq<Effect>)
    returns (stop: Option<Stop>, history: seq<Message>, ghost log: seq<Effect>)
    requires 1 <= iteration <= limits.maxIterations
    requires sink.log == base + log0 && Current(limits, start, log0, history0, usage, costComplete)
    requires InStream(StageOf(log0)) && Collected(log0, content, calls) && !Overdrawn(limits, log0)
    requires AnswersStream(ReadingOf(log0), ContentOf(content), calls)
    requires TallyOf(log0).answers == iteration - 1
    modifies sink
    ensures sink.log == base + log && log0 <= log && Current(limits, start, log, history, usage, costComplete)
    ensures Requests(log) == Requests(log0)
    ensures iteration == limits.maxIterations ==> stop.Some?
    ensures stop == None ==> BetweenTurns(log, iteration)
    ensures stop.Some? ==> EndsWith(limits, log, stop.value)
    ensures stop == Some(Finished) ==> EndsWithAnswer(history)
    ensures TallyOf(log).answers == iteration
  {
    hide Current, Requests, BatchTrace, StageOf, TallyOf, Overdrawn, EndsWith, ReadingOf, AnswersStream;
    var m := Message(Assistant, if content == "" then None else Some(content), [], calls, None, None);
    ghost var item := AssistantItem(m.content, calls);
    AnswerReads(log0, m.content, calls);
    AnswerIsSpoken(m);
    sink.Emit(AssistantItem(m.content, m.toolCalls));
    if calls == [] {
      PlainItem(limits, start, log0, history0, usage, costComplete, item, m);
      log, history := log0 + [item], history0 + [m];
      ghost var final := history;
      var steers;
      ghost var submitted;
      steers, history, submitted, log := DrainSteers(history, sink, limits, start, base, log, usage, costComplete);
      if steers == [] {
        assert history == final;
        Endings(limits, log);
        return Some(Finished), history, log;
      }
    } else {
      var results, aborted;
      ghost var b;
      var known: int -> Facts := *;
      results, aborted, b := ExecuteToolBatch(calls, seq(|calls|, i => known(i)), sink);
      AnsweredTurn(limits, start, log0, history0, usage, costComplete, m, b);
      BatchReads(log0 + [item], calls, b);
      log, history := log0 + [item] + b.log, history0 + [m] + ResultMessages(results);
      if aborted.Some? {
        Endings(limits, log);
        return Some(CancelledBy(aborted.value)), history, log;
      }
    }
    // A turn on the last iteration never leads to another one.
    stop := None;
    if iteration == limits.maxIterations {
      IterationsEnd(limits, log);
      stop := Some(FailedWith("iteration_limit"));
    }
  }

  lemma BatchReads(log: seq<Effect>, calls: seq<ToolCall>, b: BatchRecord)
    requires BatchTrace(calls, b) && StageOf(log) == Batch
    ensures StageOf(log + b.log) == BatchStage(b.cancelled) && TallyOf(log + b.log) == TallyOf(log)
  {
    hide StageOf, TallyOf, StageFrom, LaunchTrace, IsSettled, Outcomes, PlansTold, AllTruthful;
    BatchKinds(calls, b);
    ReadsBatch(log, b.log);
  }

  // ----- the run

  /** What a finished run has to show for itself. */
  ghost predicate RunRecord(limits: Limits, start: seq<Message>, log: seq<Effect>, outcome: RunOutcome) {
    // the automaton accepts the log, and every effect was allowed when it happened
    && StageOf(log) == Over && Lawful(limits, start, log)
    && |Requests(log)| <= limits.maxIterations * (1 + limits.maxRetries)
    // the last event is the outcome's
    && (match outcome
        case Completed(_, usage) =>
          && log[|log| - 1] == RunCompleted && usage == TotalUsage(Usages(log))
          && Within(limits.maxTotalTokens, Some(usage.total)) && Within(limits.maxCost, usage.cost)
        case Cancelled(_, reason) => log[|log| - 1] == RunCancelled(reason)
        case Failed(_, code) => log[|log| - 1] == RunFailed(code))
    // the returned transcript is well-formed: the last request and everything said since, which is
    // the end of everything said
    && WellFormed(outcome.history) && Faithful(start, log, outcome.history) && Extends(start, log, outcome.history)
    // every call of its answers has been reported once
    && Settled(log)
    && (outcome.Completed? ==> EndsWithAnswer(outcome.history))
  }

  /**
    The whole run. `signal` says what the cancel signal is when an iteration starts; `turns` is the
    number of iterations started, and all but the last found the signal not set.
   */
  method Run(history0: seq<Message>, prompt: Option<string>, sections: seq<string>, userInput: string,
    userParts: seq<Part>, limits: Limits, signal: nat -> Option<string>, sink: Sink)
    returns (outcome: RunOutcome, ghost log: seq<Effect>, ghost turns: nat)
    requires WellFormed(history0)
    modifies sink
    ensures sink.log == old(sink.log) + log
    ensures RunRecord(limits, Prepare(history0, prompt, sections), log, outcome)
    ensures |log| > 1 && log[1] == UserItem(Some(userInput), userParts)
    ensures Heeded(signal, log, turns) && turns <= limits.maxIterations && (turns == 0 <==> limits.maxIterations == 0)
    ensures turns > 0 && signal(turns).Some? ==> outcome == Cancelled(outcome.history, signal(turns).value)
  {
    hide Current, Requests, RunRecord, Prepare, StageOf, TallyOf, EndsWith, Heeded, BetweenTurns, EndsWithAnswer,
      LimitsExceeded;
    ghost var base := sink.log;
    var history := Prepare(history0, prompt, sections);
    ghost var start := history;
    PrepareWellFormed(history0, prompt, sections);
    sink.Emit(RunStarted);
    var user := TextMessage(User, userInput).(parts := userParts);
    sink.Emit(UserItem(user.content, user.parts));
    log := [RunStarted, UserItem(user.content, user.parts)];
    var usage, costComplete := NO_USAGE, true;
    Begin(limits, start, user);
    history := history + [user];
    var stop: Option<Stop> := None;
    if limits.maxIterations == 0 {
      stop := Some(FailedWith("iteration_limit"));
    }
    var iteration := 1;
    turns := 0;
    NothingHeeded(signal, log);
    while stop == None
      invariant sink.log == base + log && [RunStarted, UserItem(Some(userInput), userParts)] <= log
      invariant Current(limits, start, log, history, usage, costComplete)
      invariant 1 <= iteration && (stop == None ==> iteration <= limits.maxIterations)
      invariant |Requests(log)| <= (iteration - 1) * (1 + limits.maxRetries)
      invariant iteration - 1 <= limits.maxIterations
      invariant if stop == None then BetweenTurns(log, iteration - 1) else EndsWith(limits, log, stop.value)
      invariant stop == Some(Finished) ==> !LimitsExceeded(limits, usage) && EndsWithAnswer(history)
      invariant turns == iteration - 1 && Heeded(signal, log, turns)
      invariant turns == 0 && stop.Some? ==> limits.maxIterations == 0
      invariant turns > 0 && signal(turns).Some? ==> stop == Some(CancelledBy(signal(turns).value))
      decreases if stop == None then 1 else 0, limits.maxIterations - iteration
    {
      ghost var before := log;
      stop, history, usage, costComplete, log :=
        RunTurn(iteration, signal(iteration), history, limits, usage, costComplete, sink, start, base, log);
      OneTurnMore(iteration, limits.maxRetries);
      OneTurnHeeded(signal, before, log, iteration);
      turns, iteration := iteration, iteration + 1;
    }
    outcome := OutcomeFor(stop.value, history, usage);
    Conclude(limits, start, log, history, usage, costComplete, stop.value, iteration - 1);
    sink.Emit(TerminalOf(stop.value));
    TerminalHeeds(signal, log, stop.value, turns);
    log := log + [TerminalOf(stop.value)];
  }

  /** Every iteration but the last found the signal not set and gave an answer; the last one found it
      not set, or gave none. */
  ghost predicate Heeded(signal: nat -> Option<string>, log: seq<Effect>, turns: nat) {
    && (forall i :: 1 <= i < turns ==> signal(i) == None)
    && (if turns == 0 then 0 else turns - 1) <= TallyOf(log).answers
    && TallyOf(log).answers <= if turns > 0 && signal(turns).Some? then turns - 1 else turns
  }

  lemma OneTurnHeeded(signal: nat -> Option<string>, before: seq<Effect>, log: seq<Effect>, turn: nat)
    requires turn >= 1 && Heeded(signal, before, turn - 1) && (turn > 1 ==> signal(turn - 1) == None)
    requires turn - 1 <= TallyOf(log).answers <= if signal(turn) == None then turn else turn - 1
    ensures Heeded(signal, log, turn)
  {
    hide TallyOf;
  }

  lemma TerminalHeeds(signal: nat -> Option<string>, log: seq<Effect>, stop: Stop, turns: nat)
    requires Heeded(signal, log, turns)
    ensures Heeded(signal, log + [TerminalOf(stop)], turns)
  {
    hide TallyOf, StageOf;
    Reads(log, TerminalOf(stop));
  }

  lemma NothingHeeded(signal: nat -> Option<string>, log: seq<Effect>)
    requires BetweenTurns(log, 0)
    ensures Heeded(signal, log, 0)
  {
    hide TallyOf, StageOf;
  }

  lemma OneTurnMore(iteration: nat, retries: nat)
    requires iteration >= 1
    ensures (iteration - 1) * (1 + retries) + 1 + retries == iteration * (1 + retries)
  {
  }

  lemma Begin(limits: Limits, start: seq<Message>, user: Message)
    requires WellFormed(start) && user == Message(User, user.content, user.parts, [], None, None)
    ensures var log := [RunStarted, UserItem(user.content, user.parts)];
      && Current(limits, start, log, start + [user], NO_USAGE, true) && Requests(log) == []
      && BetweenTurns(log, 0)
      && (limits.maxIterations == 0 ==> EndsWith(limits, log, FailedWith("iteration_limit")))
  {
    hide StageOf, TallyOf, Overdrawn, EndsWith, BetweenTurns, Running, Requests, Extends;
    var item := UserItem(user.content, user.parts);
    BeginsEmpty(limits, start);
    EmitUnread(limits, start, [], start, NO_USAGE, true, RunStarted);
    assert [] + [RunStarted] == [RunStarted];
    PlainItem(limits, start, [RunStarted], start, NO_USAGE, true, item, user);
    assert [RunStarted] + [item] == [RunStarted, item];
    BeginReads(item);
    if limits.maxIterations == 0 {
      IterationsEnd(limits, [RunStarted, item]);
    }
  }

  lemma BeginsEmpty(limits: Limits, start: seq<Message>)
    requires WellFormed(start)
    ensures Current(limits, start, [], start, NO_USAGE, true) && Requests([]) == []
  {
    StartIsFaithful(start);
    StartExtends(start);
    SettledNothing();
  }

  lemma BeginReads(item: Effect)
    requires item.UserItem?
    ensures BetweenTurns([RunStarted, item], 0)
  {
    hide StageOf, TallyOf;
    NothingRead();
    assert [] + [RunStarted] == [RunStarted] && [RunStarted] + [item] == [RunStarted, item];
    Reads([], RunStarted);
    Reads([RunStarted], item);
  }

  lemma NothingRead()
    ensures StageOf([]) == Start && TallyOf([]) == Tally("", [], "", [], 0, false, 0)
  {
  }

  lemma Conclude(limits: Limits, start: seq<Message>, log: seq<Effect>, history: seq<Message>, usage: Usage,
    costComplete: bool, stop: Stop, turns: nat)
    requires Current(limits, start, log, history, usage, costComplete) && EndsWith(limits, log, stop)
    requires turns <= limits.maxIterations && |Requests(log)| <= turns * (1 + limits.maxRetries)
    requires stop == Finished ==> !LimitsExceeded(limits, usage) && EndsWithAnswer(history)
    ensures RunRecord(limits, start, log + [TerminalOf(stop)], OutcomeFor(stop, history, usage))
  {
    hide Faithful, Settled, WellFormed, StageOf, TallyOf, Next, Lawful, FailureIsDue, Extends, TotalUsage, Usages,
      Requests, LimitsExceeded, EndsWithAnswer, Within;
    var last := TerminalOf(stop);
    ReadAppend(log, last);
    Reads(log, last);
    UnreadFaithful(start, log, history, last);
    SettledAppend(log, last);
    LawfulAppend(limits, start, log, last);
    EffectExtends(start, log, history, last);
    ExceededExactly(limits, usage);
    assert (log + [last])[|log|] == last;
    assert turns * (1 + limits.maxRetries) <= limits.maxIterations * (1 + limits.maxRetries);
  }

  /**
    Every request of a run fits the context window, but for the summaries it carries beyond its first
    system message, or is down to one group, or its first system message alone is too large.
   */
  lemma RequestsWithinWindow(limits: Limits, start: seq<Message>, log: seq<Effect>, outcome: RunOutcome, i: nat)
    requires RunRecord(limits, start, log, outcome) && i < |log| && log[i].ModelCalled?
    ensures WellFormed(log[i].messages) && SummaryReserve.WithinWindow(log[i].messages, limits.contextTokens)
  {
    hide Compaction.Compact, SummaryReserve.WithinWindow, WellFormed, Faithful, Settled, StageOf, Renews, Repeats,
      AskIsDue, CutIsDue, FailureIsDue, FailsStream, AnswersStream, Overdrawn, TotalUsage;
    LawfulEverywhere(limits, start, log, i);
    var h, summary :| log[i].messages == Compaction.Compact(h, limits.contextTokens, summary).messages;
    SummaryReserve.CompactedWithinWindow(h, limits.contextTokens, summary);
  }

  /**
    Every answer of a run is what the provider delivered: the stream was opened by the request just
    before it, each of its items up to a Finish, or up to its end, was written down in order, the text
    and the calls of those items are the answer's, and their usage reports are the reports of the turn.
   */
  lemma AnswersAreDelivered(limits: Limits, start: seq<Message>, log: seq<Effect>, outcome: RunOutcome, i: nat)
    returns (k: nat)
    requires RunRecord(limits, start, log, outcome) && i < |log| && log[i].AssistantItem?
    ensures 0 < k < i && log[k].StreamOpened? && log[k - 1].ModelCalled?
    ensures var read := UpToEnd(log[k].items);
      && log[k + 1..i] == NotesOf(read) && (|read| < |log[k].items| ==> log[k].items[|read|].Finish?)
      && log[i] == AssistantItem(if TextIn(read) == "" then None else Some(TextIn(read)), CallsIn(read))
      && Usages(log[..i]) == Usages(log[..k]) + ReportsIn(read)
  {
    hide Faithful, Extends, Settled, WellFormed, StageOf, TallyOf, Overdrawn, IsAnswer, NotesOf, TextIn, CallsIn,
      ReportsIn, Usages, UpToEnd, FromCompaction, Renews, Repeats, AskIsDue, CutIsDue, FailureIsDue, FailsStream,
      TotalUsage;
    LawfulEverywhere(limits, start, log, i);
    k := InsideSince(log[..i]);
    AcceptedStream(log, k);
    var read := UpToEnd(log[k].items);
    assert log[..i][k + 1..] == log[k + 1..i] && log[..i] == log[..k] + [log[k]] + log[k + 1..i];
    UsagesNoted(read);
    ReadConcat(log[..k] + [log[k]], log[k + 1..i]);
    ReadAppend(log[..k], log[k]);
  }

  /**
    After a retryable error a request is the last one again; every other is the compaction of the last
    request and everything said since, with the summary that was given, if one was due.
   */
  lemma RequestsAreRenewed(limits: Limits, start: seq<Message>, log: seq<Effect>, outcome: RunOutcome, i: nat)
    requires RunRecord(limits, start, log, outcome) && i < |log| && log[i].ModelCalled?
    ensures StageOf(log[..i]).Retrying? ==> Repeats(limits, log[..i], log[i].messages)
    ensures !StageOf(log[..i]).Retrying? ==> Renews(limits, start, log[..i], log[i].messages)
  {
    hide Faithful, Extends, Settled, WellFormed, StageOf, TallyOf, FromCompaction, Renews, Repeats, AskIsDue,
      CutIsDue, FailureIsDue, FailsStream, AnswersStream, Overdrawn, TotalUsage;
    LawfulEverywhere(limits, start, log, i);
  }
}
