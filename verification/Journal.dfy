/**
  Everything a run does to the outside, in order: the events it emits, the requests it sends to
  the model, the checkpoints it takes and the tools it starts. Emitting is appending.
 */
module Journal {
  import opened Basics
  import opened Options
  import opened Transcript

  datatype Usage = Usage(
    prompt: u64, completion: u64, cacheRead: u64, cacheWrite: u64, total: u64, cost: Option<u64>)

  /** `output` is the JSON text the model reads, diagnostics included; `planId` the plan it names. */
  datatype ToolResult = ToolResult(
    isError: bool, code: string, output: string, parts: seq<Part>, planId: Option<string>)

  datatype Outcome = Outcome(call: ToolCall, result: ToolResult)

  /** What a provider's stream delivers, one by one. */
  datatype StreamItem =
    | Content(text: string)
    | Reasoning(text: string)
    | Call(call: ToolCall)
    | UsageReport(report: Usage)
    | Finish
    | StreamError(retryable: bool, code: string)

  datatype Effect =
    | RunStarted
    | UserItem(content: Option<string>, parts: seq<Part>)
    | AssistantItem(content: Option<string>, calls: seq<ToolCall>)
    | ContentDelta(text: string)
    | ReasoningDelta(text: string)
    | UsageUpdated(usage: Usage)
    | SessionCompacted(retained: nat, summary: Option<string>, upTo: Option<nat>)
    | ToolRequested(requested: ToolCall)
    | ApprovalResolved(callId: string, approved: bool)
    | ToolStarted(started: ToolCall)
    | ToolCompleted(completed: Outcome)
    | ToolFailed(failed: Outcome)
    | PlanUpdated(plan: string)
    | RunCompleted
    | RunFailed(errorCode: string)
    | RunCancelled(reason: string)
    // an event of the store only: a message the user submits to an active run
    | SteerStored(steer: string)
    // not events, what the run does: the request sent to the model, a snapshot of the files and
    // the start of a tool
    | ModelCalled(messages: seq<Message>)
    | Checkpoint(index: nat)
    | Executed(index: nat)
    // not events, what the run meets: the steers drained, the answer to a question for a summary,
    // the stream that a request opens, with all it will deliver, a call read from it, an error of
    // the provider, a refused reservation, what a tool returned, a cancel
    | SteersDrained(steers: seq<Message>)
    | SummaryAsked(candidates: seq<Message>, keep: nat, answer: Option<string>)
    | StreamOpened(items: seq<StreamItem>)
    | CallStreamed(streamed: ToolCall)
    | ProviderError(retryable: bool, code: string)
    | BudgetRefused
    | ToolReturned(index: nat, returned: ToolResult)
    | CancelSeen(reason: string)

  class Sink {
    var log: seq<Effect>

    constructor ()
      ensures log == []
    {
      log := [];
    }

    method Emit(e: Effect)
      modifies this
      ensures log == old(log) + [e]
    {
      log := log + [e];
    }
  }

  // ----- readings of a log

  predicate IsTerminal(e: Effect) {
    e.RunCompleted? || e.RunFailed? || e.RunCancelled?
  }

  /** No event ends the run. */
  ghost predicate Quiet(log: seq<Effect>) {
    forall i :: 0 <= i < |log| ==> !IsTerminal(log[i])
  }

  ghost predicate NoCompaction(log: seq<Effect>) {
    forall i :: 0 <= i < |log| ==> !log[i].SessionCompacted?
  }

  /** What `f` reads off each effect, in order. */
  function Read<T>(log: seq<Effect>, f: Effect -> seq<T>): seq<T> {
    if log == [] then [] else f(log[0]) + Read(log[1..], f)
  }

  function RequestOf(e: Effect): seq<seq<Message>> {
    if e.ModelCalled? then [e.messages] else []
  }

  function UsageOf(e: Effect): seq<Usage> {
    if e.UsageUpdated? then [e.usage] else []
  }

  function OutcomeOf(e: Effect): seq<Outcome> {
    match e case ToolCompleted(o) => [o] case ToolFailed(o) => [o] case _ => []
  }

  /** The message that rebuilding a history from the log makes of one event. */
  function Rebuilt(e: Effect): seq<Message> {
    match e
    case UserItem(content, _) => [Message(User, content, [], [], None, None)]
    case SteerStored(steer) => [TextMessage(User, steer)]
    case AssistantItem(content, calls) => [Message(Assistant, content, [], calls, None, None)]
    case ToolCompleted(o) => [ToolResultMessage(o.call, o.result.output, [])]
    case ToolFailed(o) => [ToolResultMessage(o.call, o.result.code, [])]
    case _ => []
  }

  /**
    The messages an effect adds to the live transcript, in full: with the parts, and with what a
    tool returned, failed or not. A steer is stored when it is submitted, and said when it is
    drained.
   */
  function Spoken(e: Effect): seq<Message> {
    match e
    case UserItem(content, parts) => [Message(User, content, parts, [], None, None)]
    case AssistantItem(content, calls) => [Message(Assistant, content, [], calls, None, None)]
    case ToolCompleted(o) => [ToolResultMessage(o.call, o.result.output, o.result.parts)]
    case ToolFailed(o) => [ToolResultMessage(o.call, o.result.output, o.result.parts)]
    case SteersDrained(steers) => steers
    case _ => []
  }

  /** The transcripts sent to the model. */
  function Requests(log: seq<Effect>): seq<seq<Message>> {
    Read(log, RequestOf)
  }

  function Usages(log: seq<Effect>): seq<Usage> {
    Read(log, UsageOf)
  }

  /** The tool results reported, in the order of reporting. */
  function Outcomes(log: seq<Effect>): seq<Outcome> {
    Read(log, OutcomeOf)
  }

  /** The messages a log stands for. */
  function Replay(log: seq<Effect>): seq<Message> {
    Read(log, Rebuilt)
  }

  /** What was said in a run, steers included. */
  function SpokenIn(log: seq<Effect>): seq<Message> {
    Read(log, Spoken)
  }

  lemma {:induction false} ReadParts<T>(p: seq<Effect>, q: seq<Effect>, f: Effect -> seq<T>)
    ensures Read(p + q, f) == Read(p, f) + Read(q, f)
  {
    if p == [] {
      assert p + q == q;
    } else {
      assert (p + q)[0] == p[0] && (p + q)[1..] == p[1..] + q;
      ReadParts(p[1..], q, f);
    }
  }

  lemma ReadOne<T>(e: Effect, f: Effect -> seq<T>)
    ensures Read([e], f) == f(e)
  {
    assert Read([e], f) == f(e) + Read([], f);
  }

  /** Every reading of a log is read off its parts. */
  lemma ReadConcat(p: seq<Effect>, q: seq<Effect>)
    ensures Requests(p + q) == Requests(p) + Requests(q)
    ensures Usages(p + q) == Usages(p) + Usages(q)
    ensures Outcomes(p + q) == Outcomes(p) + Outcomes(q)
    ensures Replay(p + q) == Replay(p) + Replay(q)
    ensures SpokenIn(p + q) == SpokenIn(p) + SpokenIn(q)
  {
    ReadParts(p, q, Spoken);
    ReadParts(p, q, RequestOf);
    ReadParts(p, q, UsageOf);
    ReadParts(p, q, OutcomeOf);
    ReadParts(p, q, Rebuilt);
  }

  predicate IsEvent(e: Effect) {
    match e
    case ModelCalled(_) => false
    case Checkpoint(_) => false
    case Executed(_) => false
    case SteersDrained(_) => false
    case SummaryAsked(_, _, _) => false
    case StreamOpened(_) => false
    case CallStreamed(_) => false
    case ProviderError(_, _) => false
    case BudgetRefused => false
    case ToolReturned(_, _) => false
    case CancelSeen(_) => false
    case _ => true
  }

  /** What the sink stores: the effects that are events. */
  function EventOf(e: Effect): seq<Effect> {
    if IsEvent(e) then [e] else []
  }

  function Events(log: seq<Effect>): seq<Effect> {
    Read(log, EventOf)
  }

  /** The stored events replay to the same messages as the whole log. */
  lemma {:induction false} EventsReplay(log: seq<Effect>)
    ensures Replay(Events(log)) == Replay(log)
    ensures NoCompaction(Events(log)) <==> NoCompaction(log)
  {
    hide Rebuilt;
    if log != [] {
      var (front, rest) := (EventOf(log[0]), Events(log[1..]));
      EventsReplay(log[1..]);
      ReadConcat(front, rest);
      ReadOne(log[0], Rebuilt);
      EventIsRead(log[0]);
      ConcatNoCompaction(front, rest);
      assert log == [log[0]] + log[1..];
      ConcatNoCompaction([log[0]], log[1..]);
    }
  }

  lemma EventIsRead(e: Effect)
    ensures Replay(EventOf(e)) == Rebuilt(e)
    ensures NoCompaction(EventOf(e)) <==> NoCompaction([e])
  {
    ReadOne(e, Rebuilt);
    assert EventOf(e) == [] ==> !e.SessionCompacted?;
  }

  lemma ConcatNoCompaction(p: seq<Effect>, q: seq<Effect>)
    ensures NoCompaction(p + q) <==> NoCompaction(p) && NoCompaction(q)
  {
    assert forall i :: 0 <= i < |p| ==> (p + q)[i] == p[i];
    assert forall i :: 0 <= i < |q| ==> (p + q)[|p| + i] == q[i];
  }

  /** How one effect extends every reading. */
  lemma ReadAppend(p: seq<Effect>, e: Effect)
    ensures Requests(p + [e]) == Requests(p) + RequestOf(e)
    ensures Usages(p + [e]) == Usages(p) + UsageOf(e)
    ensures Outcomes(p + [e]) == Outcomes(p) + OutcomeOf(e)
    ensures Replay(p + [e]) == Replay(p) + Rebuilt(e)
    ensures SpokenIn(p + [e]) == SpokenIn(p) + Spoken(e)
    ensures !e.ModelCalled? ==> Requests(p + [e]) == Requests(p)
    ensures !e.UsageUpdated? ==> Usages(p + [e]) == Usages(p)
    ensures OutcomeOf(e) == [] ==> Outcomes(p + [e]) == Outcomes(p)
    ensures Rebuilt(e) == [] ==> Replay(p + [e]) == Replay(p)
    ensures Spoken(e) == [] ==> SpokenIn(p + [e]) == SpokenIn(p)
  {
    ReadOne(e, Spoken);
    ReadConcat(p, [e]);
    ReadOne(e, RequestOf);
    ReadOne(e, UsageOf);
    ReadOne(e, OutcomeOf);
    ReadOne(e, Rebuilt);
  }

  /** The prefix of a log without compaction has none either. */
  lemma Prefix(log: seq<Effect>, e: Effect)
    ensures NoCompaction(log + [e]) <==> NoCompaction(log) && !e.SessionCompacted?
    ensures Quiet(log + [e]) <==> Quiet(log) && !IsTerminal(e)
  {
    assert forall i :: 0 <= i < |log| ==> (log + [e])[i] == log[i];
    assert (log + [e])[|log|] == e;
  }

  // ----- usage

  function SaturatingAdd(a: u64, b: u64): u64 {
    if a + b <= U64_MAX then a + b else U64_MAX
  }

  const NO_USAGE := Usage(0, 0, 0, 0, 0, None)

  function AddUsage(total: Usage, u: Usage): Usage {
    Usage(
      SaturatingAdd(total.prompt, u.prompt),
      SaturatingAdd(total.completion, u.completion),
      SaturatingAdd(total.cacheRead, u.cacheRead),
      SaturatingAdd(total.cacheWrite, u.cacheWrite),
      SaturatingAdd(total.total, u.total),
      match (total.cost, u.cost)
      case (Some(left), Some(right)) => Some(SaturatingAdd(left, right))
      case (None, value) => value
      case (value, None) => value)
  }

  function Sum(values: seq<nat>): nat {
    if values == [] then 0 else Sum(values[..|values| - 1]) + values[|values| - 1]
  }

  function Clip(n: nat): u64 {
    if n <= U64_MAX then n else U64_MAX
  }

  function Field(us: seq<Usage>, f: Usage -> nat): seq<nat> {
    seq(|us|, i requires 0 <= i < |us| => f(us[i]))
  }

  predicate AllCosted(us: seq<Usage>) {
    forall i :: 0 <= i < |us| ==> us[i].cost.Some?
  }

  function CostOf(u: Usage): nat {
    match u.cost case Some(c) => c case None => 0
  }

  /** The true sums, clipped once at the end; the cost only if every report had one. */
  function TotalUsage(us: seq<Usage>): Usage {
    Usage(
      Clip(Sum(Field(us, (u: Usage) => u.prompt))),
      Clip(Sum(Field(us, (u: Usage) => u.completion))),
      Clip(Sum(Field(us, (u: Usage) => u.cacheRead))),
      Clip(Sum(Field(us, (u: Usage) => u.cacheWrite))),
      Clip(Sum(Field(us, (u: Usage) => u.total))),
      if us != [] && AllCosted(us) then Some(Clip(Sum(Field(us, CostOf)))) else None)
  }

  lemma SumOneMore(us: seq<Usage>, u: Usage, f: Usage -> nat)
    ensures Sum(Field(us + [u], f)) == Sum(Field(us, f)) + f(u)
  {
    var all := Field(us + [u], f);
    assert all[..|all| - 1] == Field(us, f);
  }

  /** One report added the way the loop adds it keeps the totals exact. */
  lemma TotalOneMore(us: seq<Usage>, u: Usage)
    ensures AllCosted(us + [u]) <==> AllCosted(us) && u.cost.Some?
    ensures var added := AddUsage(TotalUsage(us), u);
      TotalUsage(us + [u]) == if AllCosted(us + [u]) then added else added.(cost := None)
  {
    SumOneMore(us, u, (u: Usage) => u.prompt);
    SumOneMore(us, u, (u: Usage) => u.completion);
    SumOneMore(us, u, (u: Usage) => u.cacheRead);
    SumOneMore(us, u, (u: Usage) => u.cacheWrite);
    SumOneMore(us, u, (u: Usage) => u.total);
    SumOneMore(us, u, CostOf);
    assert forall i :: 0 <= i < |us| ==> (us + [u])[i] == us[i];
    assert (us + [u])[|us|] == u;
    if us == [] {
      assert Field(us, CostOf) == [];
    }
  }
}
