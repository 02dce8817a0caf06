/**
  One batch of tool calls: every call passes the gates or is refused, the survivors are
  checkpointed and announced, then started, and finish in any order, until a cancel at any
  point cuts the batch short.
 */
module ToolBatch {
  import opened Basics
  import opened Options
  import opened Transcript
  import opened Journal
  import opened Protocol

  // ----- the gates

  datatype Decision = Allow | Ask | Deny

  /** What the registry, the run's allowlist, the rules, the policy and the user say about a call. */
  datatype Facts = Facts(
    registered: bool,
    allowlisted: bool,
    deferred: bool,
    active: bool,
    sessionRule: Option<Decision>,
    liveRule: Option<Decision>,
    policyRule: Option<Decision>,
    capability: Decision,
    approved: bool)

  /** Session rules win over the live project and user rules, and those over the policy's own. */
  function MatchedRule(f: Facts): Option<Decision> {
    if f.sessionRule.Some? then f.sessionRule else if f.liveRule.Some? then f.liveRule else f.policyRule
  }

  function Decide(f: Facts): Decision {
    if f.capability == Deny then Deny
    else match MatchedRule(f) case Some(rule) => rule case None => f.capability
  }

  predicate Visible(f: Facts) {
    f.registered && f.allowlisted && (f.deferred ==> f.active)
  }

  /** The error code of a refused call; None when the call passes every gate. */
  function Refusal(f: Facts): Option<string> {
    if !f.registered then Some("tool_not_found")
    else if !f.allowlisted then Some("tool_not_allowed")
    else if f.deferred && !f.active then Some("tool_not_active")
    else if Decide(f) == Deny then Some("capability_denied")
    else if Decide(f) == Ask && !f.approved then Some("approval_denied")
    else None
  }

  /**
    A call passes exactly when it is visible, its capability is not denied, and a rule, the
    capability or the user allows it: no rule lifts a denied capability. The first rule that matches
    decides, a session rule before a live one and that before one of the policy; the capability
    decides when no rule matches. The user is asked exactly about a visible call whose basis says so,
    and a refusal tells the first gate that was shut.
   */
  lemma PassesExactly(f: Facts)
    ensures var visible := f.registered && f.allowlisted && (f.deferred ==> f.active);
      var basis :=
        if f.sessionRule.Some? then f.sessionRule.value
        else if f.liveRule.Some? then f.liveRule.value
        else if f.policyRule.Some? then f.policyRule.value
        else f.capability;
      && (Refusal(f) == None <==>
          visible && f.capability != Deny && (basis == Allow || (basis == Ask && f.approved)))
      && (Refusal(f) == Some("tool_not_found") <==> !f.registered)
      && (Refusal(f) == Some("tool_not_allowed") <==> f.registered && !f.allowlisted)
      && (Refusal(f) == Some("tool_not_active") <==> f.registered && f.allowlisted && f.deferred && !f.active)
      && (Refusal(f) == Some("capability_denied") <==> visible && (f.capability == Deny || basis == Deny))
      && (Refusal(f) == Some("approval_denied") <==>
          visible && f.capability != Deny && basis == Ask && !f.approved)
      && (Visible(f) && Decide(f) == Ask <==> visible && f.capability != Deny && basis == Ask)
  {
    assert "tool_not_found"[5] == 'n' && "tool_not_allowed"[9] == 'a' && |"tool_not_active"| == 15;
    assert |"tool_not_allowed"| == 16 && |"capability_denied"| == 17 && |"approval_denied"| == 15;
    assert "capability_denied"[0] == 'c' && "approval_denied"[0] == 'a' && "tool_not_active"[0] == 't';
  }

  function ErrorResult(code: string): ToolResult {
    ToolResult(true, code, code, [], None)
  }

  /** An error with this code and nothing else, its code standing for its message. */
  predicate IsError(result: ToolResult, code: string) {
    result.isError && result.code == result.output == code && result.parts == [] && result.planId == None
  }

  function Report(o: Outcome): Effect {
    if o.result.isError then ToolFailed(o) else ToolCompleted(o)
  }

  function GateEffects(call: ToolCall, f: Facts): seq<Effect> {
    [ToolRequested(call)]
    + (if Visible(f) && Decide(f) == Ask then [ApprovalResolved(call.callId, f.approved)] else [])
    + match Refusal(f) case None => [] case Some(code) => [ToolFailed(Outcome(call, ErrorResult(code)))]
  }

  /** What the gates write: one request a call, in call order, and one failure for each refusal. */
  function GateTrace(calls: seq<ToolCall>, facts: seq<Facts>): seq<Effect>
    requires |facts| <= |calls|
  {
    if facts == [] then []
    else
      var last := |facts| - 1;
      GateTrace(calls, facts[..last]) + GateEffects(calls[last], facts[last])
  }

  /** The calls that passed, in call order. */
  function Passing(facts: seq<Facts>): (r: seq<nat>)
    ensures forall k :: 0 <= k < |r| ==> r[k] < |facts|
  {
    if facts == [] then []
    else
      var last := |facts| - 1;
      Passing(facts[..last]) + if Refusal(facts[last]) == None then [last] else []
  }

  /** Exactly the calls that pass every gate are in the list, in call order. */
  lemma {:induction false} PassingExactly(facts: seq<Facts>)
    ensures forall i: nat :: i in Passing(facts) <==> i < |facts| && Refusal(facts[i]) == None
    ensures forall j, k :: 0 <= j < k < |Passing(facts)| ==> Passing(facts)[j] < Passing(facts)[k]
  {
    if facts != [] {
      PassingExactly(facts[..|facts| - 1]);
    }
  }

  /** A snapshot and an announcement for each call. */
  function PrepareTrace(calls: seq<ToolCall>, runnable: seq<nat>): seq<Effect>
    requires forall k :: 0 <= k < |runnable| ==> runnable[k] < |calls|
  {
    if runnable == [] then []
    else
      var last := |runnable| - 1;
      PrepareTrace(calls, runnable[..last]) + [Checkpoint(runnable[last]), ToolStarted(calls[runnable[last]])]
  }

  function ExecuteTrace(runnable: seq<nat>): seq<Effect> {
    seq(|runnable|, k requires 0 <= k < |runnable| => Executed(runnable[k]))
  }

  // ----- what has been reported

  /** `order` lists the completed calls as they were reported, each once. */
  ghost predicate Reported(calls: seq<ToolCall>, completed: map<nat, Outcome>, order: seq<nat>, outcomes: seq<Outcome>)
  {
    && |outcomes| == |order|
    && (forall k :: 0 <= k < |order| ==> order[k] in completed && outcomes[k] == completed[order[k]])
    && Distinct(order)
    && (forall i :: i in completed ==> i in order)
    && forall i :: i in completed ==> i < |calls| && completed[i].call == calls[i]
  }

  lemma NothingReported(calls: seq<ToolCall>)
    ensures GateTrace(calls, []) == [] && Reported(calls, map[], [], Outcomes([])) && AreRefused([], map[])
  {
  }

  /** The completed calls are exactly the refused ones, each with its error. */
  ghost predicate AreRefused(facts: seq<Facts>, completed: map<nat, Outcome>) {
    && (forall i: nat :: i in completed <==> i < |facts| && Refusal(facts[i]).Some?)
    && forall i :: i in completed ==> completed[i].result == ErrorResult(Refusal(facts[i]).value)
  }

  lemma RefusedOneMore(facts: seq<Facts>, completed: map<nat, Outcome>, f: Facts, refused: Option<Outcome>)
    requires AreRefused(facts, completed)
    requires refused.Some? <==> Refusal(f).Some?
    requires refused.Some? ==> refused.value.result == ErrorResult(Refusal(f).value)
    ensures |facts| !in completed
    ensures AreRefused(facts + [f], if refused.Some? then completed[|facts| := refused.value] else completed)
  {
  }

  lemma ReportOneMore(calls: seq<ToolCall>, completed: map<nat, Outcome>, order: seq<nat>, outcomes: seq<Outcome>,
    i: nat, o: Outcome)
    requires Reported(calls, completed, order, outcomes)
    requires i !in completed && i < |calls| && o.call == calls[i]
    ensures Reported(calls, completed[i := o], order + [i], outcomes + [o])
  {
    var next := order + [i];
    forall x | x in completed[i := o]
      ensures x in next
    {
      assert x in order ==> x in next;
      assert next[|order|] == i;
    }
  }

  function Without<T>(s: seq<T>, p: nat): (r: seq<T>)
    requires p < |s|
    ensures |r| == |s| - 1
    ensures forall k :: 0 <= k < |r| ==> r[k] == s[if k < p then k else k + 1]
  {
    s[..p] + s[p + 1..]
  }

  lemma WithoutMultiset<T>(s: seq<T>, p: nat)
    requires p < |s|
    ensures multiset(s) == multiset(Without(s, p)) + multiset{s[p]}
  {
    assert s == s[..p] + [s[p]] + s[p + 1..];
  }

  ghost predicate Below(order: seq<nat>, n: nat) {
    forall k :: 0 <= k < |order| ==> order[k] < n
  }

  /** There are not more distinct numbers below n than n, and n of them are all of them. */
  lemma {:induction false} PigeonHole(order: seq<nat>, n: nat)
    requires Distinct(order) && Below(order, n)
    ensures |order| <= n
    ensures |order| == n && n > 0 ==> (n - 1) as nat in order
  {
    var first := if order == [] then 0 else order[0];
    if n > 0 {
      var last: nat := n - 1;
      if last in order {
        var p :| 0 <= p < |order| && order[p] == last;
        PigeonHole(Without(order, p), last);
      } else {
        assert forall k :: 0 <= k < |order| ==> order[k] in order;
        PigeonHole(order, last);
      }
    }
  }

  /** A list without repetition that holds all numbers below n and no others has n of them. */
  lemma {:induction false} CountsAll(order: seq<nat>, n: nat)
    requires Distinct(order) && Below(order, n)
    requires forall i: nat :: i < n ==> i in order
    ensures |order| == n
    decreases n
  {
    hide Without;
    if n > 0 {
      var last: nat := n - 1;
      assert last in order;
      var p :| 0 <= p < |order| && order[p] == last;
      var rest := Without(order, p);
      forall i: nat | i < last
        ensures i in rest
      {
        assert i in order;
        var q :| 0 <= q < |order| && order[q] == i;
        assert rest[if q < p then q else q - 1] == i;
      }
      CountsAll(rest, last);
    } else {
      PigeonHole(order, 0);
    }
  }

  /** Reporting in any order reports the same multiset. */
  lemma {:induction false} PermutedMultiset<T>(order: seq<nat>, s: seq<T>, t: seq<T>)
    requires Distinct(order) && Below(order, |s|) && |order| == |s| == |t|
    requires forall k :: 0 <= k < |t| ==> t[k] == s[order[k]]
    ensures multiset(t) == multiset(s)
    decreases |s|
  {
    hide Without;
    if s == [] {
      assert s == t;
    } else {
      var last: nat := |s| - 1;
      PigeonHole(order, |s|);
      var p :| 0 <= p < |order| && order[p] == last;
      var rest, u := Without(order, p), Without(t, p);
      assert forall k :: 0 <= k < last ==> u[k] == s[..last][rest[k]];
      PermutedMultiset(rest, s[..last], u);
      WithoutMultiset(t, p);
      assert s == s[..last] + [s[last]];
    }
  }

  // ----- the batch

  /** One call at the gates. `f` is what the registry, the rules and the user turn out to say. */
  method GateOne(call: ToolCall, f: Facts, sink: Sink) returns (refused: Option<Outcome>)
    modifies sink
    ensures sink.log == old(sink.log) + GateEffects(call, f)
    ensures refused == match Refusal(f) case None => None case Some(code) => Some(Outcome(call, ErrorResult(code)))
  {
    hide Decide;
    sink.Emit(ToolRequested(call));
    if Visible(f) && Decide(f) == Ask {
      sink.Emit(ApprovalResolved(call.callId, f.approved));
    }
    match Refusal(f)
    case None =>
      refused := None;
    case Some(code) =>
      refused := Some(Outcome(call, ErrorResult(code)));
      sink.Emit(ToolFailed(refused.value));
  }

  /** Every call in turn: requested, then refused on the spot or queued. */
  method Gate(calls: seq<ToolCall>, facts: seq<Facts>, sink: Sink)
    returns (immediate: map<nat, Outcome>, runnable: seq<nat>, ghost order: seq<nat>)
    requires |facts| == |calls|
    modifies sink
    ensures sink.log == old(sink.log) + GateTrace(calls, facts) && runnable == Passing(facts)
    ensures Reported(calls, immediate, order, Outcomes(GateTrace(calls, facts)))
    ensures AreRefused(facts, immediate)
  {
    hide GateEffects, Refusal, Reported, Outcomes, GateTrace, AreRefused;
    immediate, runnable, order := map[], [], [];
    NothingReported(calls);
    for index := 0 to |calls|
      invariant runnable == Passing(facts[..index])
      invariant sink.log == old(sink.log) + GateTrace(calls, facts[..index])
      invariant Reported(calls, immediate, order, Outcomes(GateTrace(calls, facts[..index])))
      invariant AreRefused(facts[..index], immediate)
    {
      ghost var before := facts[..index];
      var refused := GateOne(calls[index], facts[index], sink);
      assert facts[..index + 1] == before + [facts[index]] && (before + [facts[index]])[..index] == before;
      GateOutcomes(calls, before, facts[index]);
      RefusedOneMore(before, immediate, facts[index], refused);
      if refused.Some? {
        ReportOneMore(calls, immediate, order, Outcomes(GateTrace(calls, before)), index, refused.value);
        immediate, order := immediate[index := refused.value], order + [index];
      } else {
        runnable := runnable + [index];
      }
    }
    assert facts[..|calls|] == facts;
  }

  lemma GateEffectOutcomes(call: ToolCall, f: Facts)
    ensures Outcomes(GateEffects(call, f))
         == match Refusal(f) case None => [] case Some(code) => [Outcome(call, ErrorResult(code))]
  {
    hide Refusal, Decide, Visible;
    var requested: seq<Effect> := [ToolRequested(call)];
    var asks := if Visible(f) && Decide(f) == Ask then [ApprovalResolved(call.callId, f.approved)] else [];
    var failed: seq<Effect> :=
      match Refusal(f) case None => [] case Some(code) => [ToolFailed(Outcome(call, ErrorResult(code)))];
    ReadConcat(requested, asks);
    ReadConcat(requested + asks, failed);
    ReadOne(ToolRequested(call), OutcomeOf);
    ReadOne(ApprovalResolved(call.callId, f.approved), OutcomeOf);
    if Refusal(f).Some? {
      ReadOne(failed[0], OutcomeOf);
    }
  }

  lemma GateOutcomes(calls: seq<ToolCall>, facts: seq<Facts>, f: Facts)
    requires |facts| < |calls|
    ensures GateTrace(calls, facts + [f]) == GateTrace(calls, facts) + GateEffects(calls[|facts|], f)
    ensures Outcomes(GateTrace(calls, facts + [f])) == Outcomes(GateTrace(calls, facts))
      + match Refusal(f) case None => [] case Some(code) => [Outcome(calls[|facts|], ErrorResult(code))]
    ensures Refusal(f) == None ==> Outcomes(GateTrace(calls, facts + [f])) == Outcomes(GateTrace(calls, facts))
  {
    hide GateEffects, Outcomes;
    assert (facts + [f])[..|facts|] == facts;
    ReadConcat(GateTrace(calls, facts), GateEffects(calls[|facts|], f));
    GateEffectOutcomes(calls[|facts|], f);
  }

  /** All snapshots and announcements come before the first start, so no tool writes into a later
      call's snapshot. */
  method Launch(calls: seq<ToolCall>, runnable: seq<nat>, sink: Sink)
    requires forall k :: 0 <= k < |runnable| ==> runnable[k] < |calls|
    modifies sink
    ensures sink.log == old(sink.log) + PrepareTrace(calls, runnable) + ExecuteTrace(runnable)
  {
    for k := 0 to |runnable|
      invariant sink.log == old(sink.log) + PrepareTrace(calls, runnable[..k])
    {
      assert runnable[..k + 1][..k] == runnable[..k];
      sink.Emit(Checkpoint(runnable[k]));
      sink.Emit(ToolStarted(calls[runnable[k]]));
      assert sink.log == old(sink.log)
        + (PrepareTrace(calls, runnable[..k]) + [Checkpoint(runnable[k]), ToolStarted(calls[runnable[k]])]);
    }
    assert runnable[..|runnable|] == runnable;
    ghost var prepared := sink.log;
    for k := 0 to |runnable|
      invariant sink.log == prepared + ExecuteTrace(runnable)[..k]
    {
      sink.Emit(Executed(runnable[k]));
    }
    assert ExecuteTrace(runnable)[..|runnable|] == ExecuteTrace(runnable);
  }

  ghost predicate ToolEffects(log: seq<Effect>) {
    forall i :: 0 <= i < |log| ==> IsToolEffect(log[i])
  }

  /** The effects of a batch: nothing that ends a run, speaks to the model or is not about tools. */
  ghost predicate BatchEffects(log: seq<Effect>) {
    forall i :: 0 <= i < |log| ==> IsToolEffect(log[i]) || log[i].CancelSeen?
  }

  /** A report says of a call what its result says: completed without an error, failed with one. */
  predicate Truthful(e: Effect) {
    (e.ToolCompleted? ==> !e.completed.result.isError) && (e.ToolFailed? ==> e.failed.result.isError)
  }

  ghost predicate AllTruthful(log: seq<Effect>) {
    forall i :: 0 <= i < |log| ==> Truthful(log[i])
  }

  /** What tools return, the reports, the plan events some of them cause, and a cancel. */
  ghost predicate ResultEffects(log: seq<Effect>) {
    forall i :: 0 <= i < |log| ==>
      Truthful(log[i]) && (IsLateResult(log[i]) || log[i].PlanUpdated? || log[i].CancelSeen?)
  }

  // ----- the plans of `update_plan`

  /** The plan that a report tells of. */
  function PlanOf(e: Effect): Option<string> {
    if e.ToolCompleted? && e.completed.call.name == "update_plan" then e.completed.result.planId else None
  }

  /** Entry `i` is no plan event, or one that its predecessor tells of; and what entry `i` tells of
      comes next, unless the batch was cancelled before. */
  ghost predicate PlanToldAt(log: seq<Effect>, i: nat) {
    i < |log| ==>
      && (log[i].PlanUpdated? ==> i > 0 && PlanOf(log[i - 1]) == Some(log[i].plan))
      && (PlanOf(log[i]).Some? ==>
          || (i + 1 < |log| && log[i + 1] == PlanUpdated(PlanOf(log[i]).value))
          || exists j :: 0 <= j < i && log[j].CancelSeen?)
  }

  ghost predicate PlansTold(log: seq<Effect>, n: nat) {
    forall i: nat :: i < n ==> PlanToldAt(log, i)
  }

  lemma {:induction false} NoOutcomes(log: seq<Effect>)
    requires forall i :: 0 <= i < |log| ==> OutcomeOf(log[i]) == []
    ensures Outcomes(log) == []
  {
    if log != [] {
      NoOutcomes(log[1..]);
    }
  }

  lemma {:induction false} LaunchReportsNothing(calls: seq<ToolCall>, runnable: seq<nat>)
    requires forall k :: 0 <= k < |runnable| ==> runnable[k] < |calls|
    ensures Outcomes(PrepareTrace(calls, runnable) + ExecuteTrace(runnable)) == []
    ensures ToolEffects(PrepareTrace(calls, runnable) + ExecuteTrace(runnable))
    ensures AllTruthful(PrepareTrace(calls, runnable) + ExecuteTrace(runnable))
  {
    PrepareReportsNothing(calls, runnable);
    NoOutcomes(PrepareTrace(calls, runnable) + ExecuteTrace(runnable));
  }

  lemma {:induction false} PrepareReportsNothing(calls: seq<ToolCall>, runnable: seq<nat>)
    requires forall k :: 0 <= k < |runnable| ==> runnable[k] < |calls|
    ensures forall i :: 0 <= i < |PrepareTrace(calls, runnable)| ==>
      PrepareTrace(calls, runnable)[i].Checkpoint? || PrepareTrace(calls, runnable)[i].ToolStarted?
  {
    if runnable != [] {
      PrepareReportsNothing(calls, runnable[..|runnable| - 1]);
    }
  }

  lemma {:induction false} GateTraceKinds(calls: seq<ToolCall>, facts: seq<Facts>)
    requires |facts| <= |calls|
    ensures ToolEffects(GateTrace(calls, facts)) && AllTruthful(GateTrace(calls, facts))
  {
    if facts != [] {
      GateTraceKinds(calls, facts[..|facts| - 1]);
    }
  }

  lemma OutcomesOneMore(log: seq<Effect>, o: Outcome)
    ensures Outcomes(log + [Report(o)]) == Outcomes(log) + [o]
  {
    hide Outcomes;
    ReadAppend(log, Report(o));
  }

  function BatchStage(cancelled: Option<string>): Stage {
    match cancelled case None => Batch case Some(reason) => Cancelling(reason, true)
  }

  /** A started call has the result its tool returned, or was aborted by the cancel. */
  ghost predicate IsSettled(finish: seq<Effect>, i: nat, result: ToolResult, cancelled: Option<string>) {
    || ToolReturned(i, result) in finish
    || (cancelled.Some? && IsError(result, "tool_batch_cancelled"))
  }

  /**
    The batch after its start: `finish` is what it wrote since, `order` lists the completed calls
    as they were reported, and `running` are the calls still without a result.
   */
  ghost predicate Collecting(calls: seq<ToolCall>, immediate: map<nat, Outcome>, before: seq<Outcome>,
    cancelled: Option<string>, completed: map<nat, Outcome>, running: set<nat>, order: seq<nat>, finish: seq<Effect>)
  {
    && ResultEffects(finish) && StageFrom(Batch, finish) == BatchStage(cancelled)
    && (cancelled.Some? ==> CancelSeen(cancelled.value) in finish)
    && (forall i: nat :: i in running <==> i < |calls| && i !in completed)
    && (forall i :: i in immediate ==> i in completed && completed[i] == immediate[i])
    && (forall i :: i in completed && i !in immediate ==> IsSettled(finish, i, completed[i].result, cancelled))
    && Reported(calls, completed, order, before + Outcomes(finish))
  }

  /** What was settled stays settled as the log grows. */
  lemma SettledStays(finish: seq<Effect>, e: Effect, i: nat, result: ToolResult, cancelled: Option<string>,
    later: Option<string>)
    requires IsSettled(finish, i, result, cancelled) && (cancelled.Some? ==> later.Some?)
    ensures IsSettled(finish + [e], i, result, later)
  {
  }

  lemma CollectOne(calls: seq<ToolCall>, immediate: map<nat, Outcome>, before: seq<Outcome>,
    cancelled: Option<string>, completed: map<nat, Outcome>, running: set<nat>, order: seq<nat>, finish: seq<Effect>,
    i: nat, result: ToolResult)
    requires Collecting(calls, immediate, before, cancelled, completed, running, order, finish) && i in running
    requires IsSettled(finish, i, result, cancelled)
    ensures var o := Outcome(calls[i], result);
      Collecting(calls, immediate, before, cancelled, completed[i := o], running - {i}, order + [i],
        finish + [Report(o)])
  {
    hide Reported, Outcomes, IsSettled, Next;
    var o := Outcome(calls[i], result);
    ReportOneMore(calls, completed, order, before + Outcomes(finish), i, o);
    OutcomesOneMore(finish, o);
    assert before + Outcomes(finish) + [o] == before + (Outcomes(finish) + [o]);
    StageAppend(Batch, finish, Report(o));
    LateResultStays(cancelled, Report(o));
    forall j | j in completed[i := o] && j !in immediate
      ensures IsSettled(finish + [Report(o)], j, completed[i := o][j].result, cancelled)
    {
      SettledStays(finish, Report(o), j, completed[i := o][j].result, cancelled, cancelled);
    }
  }

  lemma LateResultStays(cancelled: Option<string>, e: Effect)
    requires IsLateResult(e)
    ensures Next(BatchStage(cancelled), e) == BatchStage(cancelled)
  {
  }

  lemma AllStaySettled(immediate: map<nat, Outcome>, completed: map<nat, Outcome>, cancelled: Option<string>,
    later: Option<string>, finish: seq<Effect>, e: Effect)
    requires cancelled.Some? ==> later.Some?
    requires forall i :: i in completed && i !in immediate ==> IsSettled(finish, i, completed[i].result, cancelled)
    ensures forall i :: i in completed && i !in immediate ==> IsSettled(finish + [e], i, completed[i].result, later)
  {
    hide IsSettled;
    forall i | i in completed && i !in immediate
      ensures IsSettled(finish + [e], i, completed[i].result, later)
    {
      SettledStays(finish, e, i, completed[i].result, cancelled, later);
    }
  }

  /** What a tool returned is written down before it is reported. */
  lemma CollectReturned(calls: seq<ToolCall>, immediate: map<nat, Outcome>, before: seq<Outcome>,
    cancelled: Option<string>, completed: map<nat, Outcome>, running: set<nat>, order: seq<nat>, finish: seq<Effect>,
    i: nat, result: ToolResult)
    requires Collecting(calls, immediate, before, cancelled, completed, running, order, finish)
    ensures Collecting(calls, immediate, before, cancelled, completed, running, order,
      finish + [ToolReturned(i, result)])
  {
    hide Reported, Outcomes, IsSettled, Next, ResultEffects, OutcomeOf;
    OtherReading(finish, ToolReturned(i, result));
    StageAppend(Batch, finish, ToolReturned(i, result));
    OtherStage(cancelled, ToolReturned(i, result));
    AllStaySettled(immediate, completed, cancelled, cancelled, finish, ToolReturned(i, result));
  }

  lemma CollectPlan(calls: seq<ToolCall>, immediate: map<nat, Outcome>, before: seq<Outcome>,
    completed: map<nat, Outcome>, running: set<nat>, order: seq<nat>, finish: seq<Effect>, id: string)
    requires Collecting(calls, immediate, before, None, completed, running, order, finish)
    ensures Collecting(calls, immediate, before, None, completed, running, order, finish + [PlanUpdated(id)])
  {
    hide Reported, Outcomes, IsSettled, Next, ResultEffects, OutcomeOf;
    OtherReading(finish, PlanUpdated(id));
    StageAppend(Batch, finish, PlanUpdated(id));
    OtherStage(None, PlanUpdated(id));
    AllStaySettled(immediate, completed, None, None, finish, PlanUpdated(id));
  }

  lemma CollectCancel(calls: seq<ToolCall>, immediate: map<nat, Outcome>, before: seq<Outcome>,
    completed: map<nat, Outcome>, running: set<nat>, order: seq<nat>, finish: seq<Effect>, reason: string)
    requires Collecting(calls, immediate, before, None, completed, running, order, finish)
    ensures Collecting(calls, immediate, before, Some(reason), completed, running, order, finish + [CancelSeen(reason)])
  {
    hide Reported, Outcomes, IsSettled, Next, ResultEffects, OutcomeOf;
    OtherReading(finish, CancelSeen(reason));
    StageAppend(Batch, finish, CancelSeen(reason));
    OtherStage(None, CancelSeen(reason));
    AllStaySettled(immediate, completed, None, Some(reason), finish, CancelSeen(reason));
  }

  lemma OtherReading(finish: seq<Effect>, e: Effect)
    requires ResultEffects(finish) && (e.ToolReturned? || e.PlanUpdated? || e.CancelSeen?)
    ensures Outcomes(finish + [e]) == Outcomes(finish) && ResultEffects(finish + [e])
  {
    hide Outcomes, OutcomeOf;
    ReadAppend(finish, e);
    assert OutcomeOf(e) == [] by { NoOutcome(e); }
    assert Truthful(e);
    forall i | 0 <= i < |finish + [e]|
      ensures Truthful((finish + [e])[i])
      ensures var x := (finish + [e])[i]; IsLateResult(x) || x.PlanUpdated? || x.CancelSeen?
    {
      assert (finish + [e])[i] == if i < |finish| then finish[i] else e;
    }
  }

  lemma NoOutcome(e: Effect)
    requires e.ToolReturned? || e.PlanUpdated? || e.CancelSeen?
    ensures OutcomeOf(e) == []
  {
  }

  lemma OtherStage(cancelled: Option<string>, e: Effect)
    requires e.ToolReturned? || (cancelled == None && (e.PlanUpdated? || e.CancelSeen?))
    ensures Next(BatchStage(cancelled), e) == BatchStage(if e.CancelSeen? then Some(e.reason) else cancelled)
  {
  }

  /** The plan events a successful `update_plan` causes when its output names a plan. */
  method EmitPlanEvents(call: ToolCall, result: ToolResult, sink: Sink) returns (emitted: bool)
    modifies sink
    ensures emitted <==> call.name == "update_plan" && !result.isError && result.planId.Some?
    ensures sink.log == old(sink.log) + if emitted then [PlanUpdated(result.planId.value)] else []
  {
    emitted := call.name == "update_plan" && !result.isError && result.planId.Some?;
    if emitted {
      sink.Emit(PlanUpdated(result.planId.value));
    }
  }

  lemma NoPlans(log: seq<Effect>)
    requires forall i :: 0 <= i < |log| ==> !log[i].PlanUpdated? && PlanOf(log[i]) == None
    ensures PlansTold(log, |log|)
  {
    hide PlanOf;
  }

  lemma ToldStays(log: seq<Effect>, e: Effect, i: nat)
    requires PlanToldAt(log, i) && i < |log|
    ensures PlanToldAt(log + [e], i)
  {
    assert forall j :: 0 <= j < |log| ==> (log + [e])[j] == log[j];
  }

  /** One more effect; one that tells of a plan only after a cancel. */
  lemma ToldOneMore(log: seq<Effect>, e: Effect)
    requires PlansTold(log, |log|) && !e.PlanUpdated?
    requires PlanOf(e) == None || exists j :: 0 <= j < |log| && log[j].CancelSeen?
    ensures PlansTold(log + [e], |log| + 1)
  {
    hide PlanToldAt, PlanOf;
    forall i: nat | i < |log| + 1
      ensures PlanToldAt(log + [e], i)
    {
      if i < |log| {
        ToldStays(log, e, i);
      } else {
        LastTold(log, e);
      }
    }
  }

  lemma LastTold(log: seq<Effect>, e: Effect)
    requires !e.PlanUpdated?
    requires PlanOf(e) == None || exists j :: 0 <= j < |log| && log[j].CancelSeen?
    ensures PlanToldAt(log + [e], |log|)
  {
    if j :| 0 <= j < |log| && log[j].CancelSeen? {
      assert (log + [e])[j] == log[j];
    }
  }

  /** A report that tells of a plan, and its plan event. */
  lemma PlanFollows(log: seq<Effect>, e: Effect)
    requires PlansTold(log, |log|) && PlanOf(e).Some?
    ensures PlansTold(log + [e] + [PlanUpdated(PlanOf(e).value)], |log| + 2)
  {
    hide PlanToldAt, PlanOf;
    var told := log + [e] + [PlanUpdated(PlanOf(e).value)];
    forall i: nat | i < |log| + 2
      ensures PlanToldAt(told, i)
    {
      if i < |log| {
        ToldStays(log, e, i);
        ToldStays(log + [e], PlanUpdated(PlanOf(e).value), i);
      } else {
        PlanPair(log, e, i);
      }
    }
  }

  lemma PlanPair(log: seq<Effect>, e: Effect, i: nat)
    requires PlanOf(e).Some? && |log| <= i < |log| + 2
    ensures PlanToldAt(log + [e] + [PlanUpdated(PlanOf(e).value)], i)
  {
  }

  /** What a tool returned, its report, and the plan event it causes outside a cancel. */
  lemma PlanAfterReport(log: seq<Effect>, i: nat, o: Outcome, cancelled: bool)
    requires PlansTold(log, |log|)
    requires cancelled ==> exists j :: 0 <= j < |log| && log[j].CancelSeen?
    ensures var plan := if o.call.name == "update_plan" && !o.result.isError then o.result.planId else None;
      var told := log + [ToolReturned(i, o.result), Report(o)];
      && (plan == None || cancelled ==> PlansTold(told, |told|))
      && (plan.Some? ==> PlansTold(told + [PlanUpdated(plan.value)], |told| + 1))
  {
    hide PlansTold;
    var returned := log + [ToolReturned(i, o.result)];
    ToldOneMore(log, ToolReturned(i, o.result));
    assert log + [ToolReturned(i, o.result), Report(o)] == returned + [Report(o)];
    if j :| 0 <= j < |log| && log[j].CancelSeen? {
      assert returned[j] == log[j];
    }
    if PlanOf(Report(o)) == None || cancelled {
      ToldOneMore(returned, Report(o));
    }
    if PlanOf(Report(o)).Some? {
      PlanFollows(returned, Report(o));
    }
  }

  /**
    The started tools finish in any order. A cancel may come at any point; then some more finish
    within the grace period, the rest are aborted, and each call left over gets an error.
   */
  method Collect(calls: seq<ToolCall>, immediate: map<nat, Outcome>, started: set<nat>, sink: Sink,
    ghost order0: seq<nat>, ghost before: seq<Outcome>)
    returns (completed: map<nat, Outcome>, cancelled: Option<string>, ghost order: seq<nat>, ghost finish: seq<Effect>)
    requires Collecting(calls, immediate, before, None, immediate, started, order0, [])
    modifies sink
    ensures sink.log == old(sink.log) + finish && PlansTold(finish, |finish|)
    ensures Collecting(calls, immediate, before, cancelled, completed, {}, order, finish)
  {
    hide Collecting, PlansTold, PlanOf;
    assert PlansTold([], 0) by { NothingTold(); }
    completed, order, finish, cancelled := immediate, order0, [], None;
    var running := started;
    while running != {} && cancelled == None
      invariant sink.log == old(sink.log) + finish && running <= started && PlansTold(finish, |finish|)
      invariant Collecting(calls, immediate, before, cancelled, completed, running, order, finish)
      decreases running, cancelled == None
    {
      var cancel: Option<string> := *;
      if cancel.Some? {
        CollectCancel(calls, immediate, before, completed, running, order, finish, cancel.value);
        NoPlan(CancelSeen(cancel.value));
        ToldOneMore(finish, CancelSeen(cancel.value));
        sink.Emit(CancelSeen(cancel.value));
        cancelled, finish := cancel, finish + [CancelSeen(cancel.value)];
      } else {
        var i :| i in running;
        var result;
        result, completed, order, finish :=
          Finish(calls, immediate, before, cancelled, completed, running, order, finish, i, sink);
        running := running - {i};
        var emitted := EmitPlanEvents(calls[i], result, sink);
        if emitted {
          CollectPlan(calls, immediate, before, completed, running, order, finish, result.planId.value);
          finish := finish + [PlanUpdated(result.planId.value)];
        }
      }
    }
    var grace: bool := *;
    while running != {} && grace
      invariant sink.log == old(sink.log) + finish && running <= started && PlansTold(finish, |finish|)
      invariant Collecting(calls, immediate, before, cancelled, completed, running, order, finish)
      invariant running != {} ==> cancelled.Some?
      decreases running
    {
      var i :| i in running;
      var result;
      result, completed, order, finish :=
        Finish(calls, immediate, before, cancelled, completed, running, order, finish, i, sink);
      running := running - {i};
      grace := *;
    }
    while running != {}
      invariant sink.log == old(sink.log) + finish && PlansTold(finish, |finish|)
      invariant Collecting(calls, immediate, before, cancelled, completed, running, order, finish)
      invariant running != {} ==> cancelled.Some?
      decreases running
    {
      var i :| i in running;
      ghost var written := finish;
      completed, order, finish := Settle(calls, immediate, before, cancelled, completed, running, order, finish, i,
        ErrorResult("tool_batch_cancelled"), sink);
      NoPlan(Report(completed[i]));
      ToldOneMore(written, Report(completed[i]));
      running := running - {i};
    }
  }

  /** A tool finishes: what it returned is reported. */
  method Finish(calls: seq<ToolCall>, immediate: map<nat, Outcome>, ghost before: seq<Outcome>,
    ghost cancelled: Option<string>, completed: map<nat, Outcome>, ghost running: set<nat>, ghost order: seq<nat>,
    ghost finish: seq<Effect>, i: nat, sink: Sink)
    returns (result: ToolResult, completed': map<nat, Outcome>, ghost order': seq<nat>, ghost finish': seq<Effect>)
    requires Collecting(calls, immediate, before, cancelled, completed, running, order, finish) && i in running
    modifies sink
    ensures i < |calls| && completed' == completed[i := Outcome(calls[i], result)]
    ensures finish' == finish + [ToolReturned(i, result), Report(completed'[i])]
    ensures PlansTold(finish, |finish|) ==>
      var plan := if calls[i].name == "update_plan" && !result.isError then result.planId else None;
      && (plan == None || cancelled.Some? ==> PlansTold(finish', |finish'|))
      && (plan.Some? ==> PlansTold(finish' + [PlanUpdated(plan.value)], |finish'| + 1))
    ensures sink.log == old(sink.log) + [ToolReturned(i, result), Report(completed'[i])]
    ensures Collecting(calls, immediate, before, cancelled, completed', running - {i}, order', finish')
  {
    hide Collecting, PlansTold;
    result := *;
    CollectReturned(calls, immediate, before, cancelled, completed, running, order, finish, i, result);
    sink.Emit(ToolReturned(i, result));
    completed', order', finish' :=
      Settle(calls, immediate, before, cancelled, completed, running, order, finish + [ToolReturned(i, result)], i,
        result, sink);
    assert finish + [ToolReturned(i, result)] + [Report(completed'[i])]
      == finish + [ToolReturned(i, result), Report(completed'[i])];
    assert sink.log == old(sink.log) + [ToolReturned(i, result)] + [Report(completed'[i])];
    if PlansTold(finish, |finish|) {
      CancelIsSeen(calls, immediate, before, cancelled, completed, running, order, finish);
      PlanAfterReport(finish, i, completed'[i], cancelled.Some?);
    }
  }

  lemma CancelIsSeen(calls: seq<ToolCall>, immediate: map<nat, Outcome>, before: seq<Outcome>,
    cancelled: Option<string>, completed: map<nat, Outcome>, running: set<nat>, order: seq<nat>, finish: seq<Effect>)
    requires Collecting(calls, immediate, before, cancelled, completed, running, order, finish)
    ensures cancelled.Some? ==> exists j :: 0 <= j < |finish| && finish[j].CancelSeen?
  {
  }

  /** One call gets its result, from its tool or from the cancel. */
  method Settle(calls: seq<ToolCall>, immediate: map<nat, Outcome>, ghost before: seq<Outcome>,
    ghost cancelled: Option<string>, completed: map<nat, Outcome>, ghost running: set<nat>, ghost order: seq<nat>,
    ghost finish: seq<Effect>, i: nat, result: ToolResult, sink: Sink)
    returns (completed': map<nat, Outcome>, ghost order': seq<nat>, ghost finish': seq<Effect>)
    requires Collecting(calls, immediate, before, cancelled, completed, running, order, finish) && i in running
    requires IsSettled(finish, i, result, cancelled)
    modifies sink
    ensures i < |calls| && completed' == completed[i := Outcome(calls[i], result)]
    ensures finish' == finish + [Report(completed'[i])] && sink.log == old(sink.log) + [Report(completed'[i])]
    ensures Collecting(calls, immediate, before, cancelled, completed', running - {i}, order', finish')
  {
    CollectOne(calls, immediate, before, cancelled, completed, running, order, finish, i, result);
    var o := Outcome(calls[i], result);
    sink.Emit(Report(o));
    completed', order', finish' := completed[i := o], order + [i], finish + [Report(o)];
  }

  /** A finished batch: the results in call order, the order of completion, what it wrote, and the
      part of that since the tools started. */
  datatype BatchRecord = BatchRecord(
    facts: seq<Facts>, results: seq<Outcome>, cancelled: Option<string>, order: seq<nat>,
    log: seq<Effect>, finish: seq<Effect>)

  ghost predicate BatchTrace(calls: seq<ToolCall>, b: BatchRecord) {
    && |b.facts| == |calls| == |b.results| == |b.order|
    && b.log == LaunchTrace(calls, b.facts) + b.finish
    && ResultEffects(b.finish) && AllTruthful(b.log) && PlansTold(b.finish, |b.finish|)
    && StageFrom(Batch, b.log) == BatchStage(b.cancelled)
    // a refused call has its error, a started one what its tool returned or the abort
    && (forall i :: 0 <= i < |calls| ==> b.results[i].call == calls[i])
    && (forall i :: 0 <= i < |calls| && Refusal(b.facts[i]).Some? ==>
        IsError(b.results[i].result, Refusal(b.facts[i]).value))
    && (forall i :: 0 <= i < |calls| && Refusal(b.facts[i]) == None ==>
        IsSettled(b.finish, i, b.results[i].result, b.cancelled))
    // every call is reported exactly once, in the order of completion
    && Distinct(b.order) && Below(b.order, |calls|)
    && Outcomes(b.log) == seq(|b.order|, k requires 0 <= k < |b.order| => b.results[b.order[k]])
  }

  /** What was written when the tools start. */
  function LaunchTrace(calls: seq<ToolCall>, facts: seq<Facts>): seq<Effect>
    requires |facts| == |calls|
  {
    GateTrace(calls, facts) + PrepareTrace(calls, Passing(facts)) + ExecuteTrace(Passing(facts))
  }

  lemma ReadyToCollect(calls: seq<ToolCall>, facts: seq<Facts>, immediate: map<nat, Outcome>, order: seq<nat>,
    started: set<nat>)
    requires |facts| == |calls|
    requires Reported(calls, immediate, order, Outcomes(GateTrace(calls, facts)))
    requires forall i: nat :: i in started <==> i < |calls| && i !in immediate
    ensures Collecting(calls, immediate, Outcomes(LaunchTrace(calls, facts)), None, immediate, started, order, [])
  {
    hide Reported, GateTrace, LaunchTrace, Outcomes;
    LaunchOutcomes(calls, facts);
    NothingCollected();
    assert Outcomes(GateTrace(calls, facts)) + [] == Outcomes(GateTrace(calls, facts));
  }

  lemma NothingTold()
    ensures PlansTold([], 0)
  {
  }

  lemma NoPlan(e: Effect)
    requires !e.ToolCompleted?
    ensures PlanOf(e) == None
  {
  }

  lemma NothingCollected()
    ensures Outcomes([]) == [] && ResultEffects([]) && StageFrom(Batch, []) == Batch
  {
  }

  lemma LaunchParts(calls: seq<ToolCall>, facts: seq<Facts>)
    requires |facts| == |calls|
    ensures LaunchTrace(calls, facts)
      == GateTrace(calls, facts) + (PrepareTrace(calls, Passing(facts)) + ExecuteTrace(Passing(facts)))
  {
    hide GateTrace, PrepareTrace, ExecuteTrace;
  }

  /** Only the gates report anything before the tools run. */
  lemma LaunchOutcomes(calls: seq<ToolCall>, facts: seq<Facts>)
    requires |facts| == |calls|
    ensures Outcomes(LaunchTrace(calls, facts)) == Outcomes(GateTrace(calls, facts))
  {
    hide GateTrace, PrepareTrace, ExecuteTrace, LaunchTrace, Outcomes, Passing;
    var launch := PrepareTrace(calls, Passing(facts)) + ExecuteTrace(Passing(facts));
    LaunchParts(calls, facts);
    LaunchReportsNothing(calls, Passing(facts));
    ReadConcat(GateTrace(calls, facts), launch);
  }

  lemma BatchIsComplete(calls: seq<ToolCall>, facts: seq<Facts>, immediate: map<nat, Outcome>,
    completed: map<nat, Outcome>, cancelled: Option<string>, order: seq<nat>, finish: seq<Effect>,
    results: seq<Outcome>)
    requires |facts| == |calls| == |results| && AreRefused(facts, immediate)
    requires Collecting(calls, immediate, Outcomes(LaunchTrace(calls, facts)), cancelled, completed, {}, order, finish)
    requires PlansTold(finish, |finish|)
    requires forall i: nat :: i < |calls| ==> i in completed && results[i] == completed[i]
    ensures BatchTrace(calls, BatchRecord(facts, results, cancelled, order, LaunchTrace(calls, facts) + finish, finish))
  {
    hide LaunchTrace, Refusal, Outcomes, IsSettled, Next, Reported, StageFrom;
    ReadConcat(LaunchTrace(calls, facts), finish);
    LaunchStaysInBatch(calls, facts);
    StageConcat(Batch, LaunchTrace(calls, facts), finish);
    AllReported(calls, completed, order, Outcomes(LaunchTrace(calls, facts)) + Outcomes(finish), results);
    forall i: nat | i < |calls| && Refusal(facts[i]).Some?
      ensures results[i].result == ErrorResult(Refusal(facts[i]).value)
    {
      assert i in immediate;
    }
  }

  /** When every call has completed, the order lists them all, and the reports are the results. */
  lemma AllReported(calls: seq<ToolCall>, completed: map<nat, Outcome>, order: seq<nat>, outcomes: seq<Outcome>,
    results: seq<Outcome>)
    requires Reported(calls, completed, order, outcomes) && |results| == |calls|
    requires forall i: nat :: i < |calls| ==> i in completed && results[i] == completed[i]
    ensures |order| == |calls| && Distinct(order) && Below(order, |calls|)
    ensures outcomes == seq(|order|, k requires 0 <= k < |order| => results[order[k]])
    ensures forall i: nat :: i < |calls| ==> results[i].call == calls[i]
  {
    assert forall k :: 0 <= k < |order| ==> order[k] in completed;
    assert forall i: nat :: i < |calls| ==> i in order;
    CountsAll(order, |calls|);
  }

  lemma LaunchStaysInBatch(calls: seq<ToolCall>, facts: seq<Facts>)
    requires |facts| == |calls|
    ensures ToolEffects(LaunchTrace(calls, facts)) && AllTruthful(LaunchTrace(calls, facts))
    ensures StageFrom(Batch, LaunchTrace(calls, facts)) == Batch
  {
    hide GateTrace, PrepareTrace, ExecuteTrace;
    GateTraceKinds(calls, facts);
    LaunchReportsNothing(calls, Passing(facts));
    var gates := GateTrace(calls, facts);
    var launch := PrepareTrace(calls, Passing(facts)) + ExecuteTrace(Passing(facts));
    assert LaunchTrace(calls, facts) == gates + launch;
    ToolsStayInBatch(LaunchTrace(calls, facts));
  }

  /** The batch of an answer. `facts` are what the registry, the rules and the user turn out to say of
      its calls. */
  method ExecuteToolBatch(calls: seq<ToolCall>, facts: seq<Facts>, sink: Sink)
    returns (results: seq<Outcome>, cancelled: Option<string>, ghost b: BatchRecord)
    requires |facts| == |calls|
    modifies sink
    ensures sink.log == old(sink.log) + b.log && b.facts == facts && b.results == results && b.cancelled == cancelled
    ensures BatchTrace(calls, b)
  {
    hide Reported, Collecting, AreRefused, GateTrace, PrepareTrace, ExecuteTrace, BatchTrace, Outcomes, Refusal;
    var immediate, runnable;
    ghost var order, finish;
    immediate, runnable, order := Gate(calls, facts, sink);
    Launch(calls, runnable, sink);
    assert sink.log == old(sink.log) + LaunchTrace(calls, facts);
    var started := set i: nat | i < |calls| && i !in immediate;
    ReadyToCollect(calls, facts, immediate, order, started);
    var completed;
    completed, cancelled, order, finish :=
      Collect(calls, immediate, started, sink, order, Outcomes(LaunchTrace(calls, facts)));
    AllCompleted(calls, immediate, Outcomes(LaunchTrace(calls, facts)), cancelled, completed, order, finish);
    results := [];
    for i := 0 to |calls|
      invariant |results| == i
      invariant forall j :: 0 <= j < i ==> results[j] == completed[j]
    {
      results := results + [completed[i]];
    }
    b := BatchRecord(facts, results, cancelled, order, LaunchTrace(calls, facts) + finish, finish);
    BatchIsComplete(calls, facts, immediate, completed, cancelled, order, finish, results);
  }

  lemma AllCompleted(calls: seq<ToolCall>, immediate: map<nat, Outcome>, before: seq<Outcome>,
    cancelled: Option<string>, completed: map<nat, Outcome>, order: seq<nat>, finish: seq<Effect>)
    requires Collecting(calls, immediate, before, cancelled, completed, {}, order, finish)
    ensures forall i: nat :: i < |calls| ==> i in completed
  {
    forall i: nat | i < |calls|
      ensures i in completed
    {
      assert i !in {};
    }
  }
}
