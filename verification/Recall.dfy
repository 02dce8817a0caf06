/**
  What a live transcript remembers of a run: it ends like everything that was said, from the
  message on where the last compaction cut it, and without compaction it is all of it.
 */
module Recall {
  import opened Basics
  import opened Options
  import opened Transcript
  import Compaction
  import CompactHistory
  import SummaryReserve
  import opened Journal
  import opened HistoryRebuild
  import opened ToolBatch
  import opened BatchReplay

  /** The part of the live transcript that this run added. */
  function Added(start: seq<Message>, history: seq<Message>): seq<Message>
    requires Compaction.NonSystem(start) <= Compaction.NonSystem(history)
  {
    Compaction.NonSystem(history)[|Compaction.NonSystem(start)|..]
  }

  /** Everything said so far: what the run started with, and what was said in it. */
  function Said(start: seq<Message>, log: seq<Effect>): seq<Block> {
    Shape(Compaction.NonSystem(start) + SpokenIn(log))
  }

  function Held(history: seq<Message>): seq<Block> {
    Shape(Compaction.NonSystem(history))
  }

  /** What is held is the end of what was said, never nothing of something, and without compaction
      all of it. */
  ghost predicate Remembered(start: seq<Message>, log: seq<Effect>, history: seq<Message>) {
    && IsSuffix(Held(history), Said(start, log))
    && (Said(start, log) != [] ==> Held(history) != [])
    && (NoCompaction(log) ==> Held(history) == Said(start, log))
  }

  /** With no compaction, what the run started with is still there, and what it added was said. */
  ghost predicate Exact(start: seq<Message>, log: seq<Effect>, history: seq<Message>) {
    NoCompaction(log) ==>
      && Compaction.NonSystem(start) <= Compaction.NonSystem(history)
      && Shape(SpokenIn(log)) == Shape(Added(start, history))
  }

  ghost predicate Faithful(start: seq<Message>, log: seq<Effect>, history: seq<Message>) {
    Remembered(start, log, history) && Exact(start, log, history)
  }

  lemma StartIsFaithful(start: seq<Message>)
    ensures Faithful(start, [], start)
  {
    assert Added(start, start) == [];
    assert Compaction.NonSystem(start) + SpokenIn([]) == Compaction.NonSystem(start);
  }

  /** Effects that say nothing leave the transcript as it is. */
  lemma UnreadFaithful(start: seq<Message>, log: seq<Effect>, history: seq<Message>, e: Effect)
    requires Faithful(start, log, history) && Spoken(e) == []
    ensures Faithful(start, log + [e], history)
  {
    hide Shape, SpokenIn, NoCompaction;
    ReadAppend(log, e);
    Prefix(log, e);
  }

  /** Messages that are not system messages extend what the run added. */
  lemma AddedMore(start: seq<Message>, history: seq<Message>, more: seq<Message>)
    requires Compaction.NonSystem(start) <= Compaction.NonSystem(history)
    requires forall i :: 0 <= i < |more| ==> more[i].role != System
    ensures Compaction.NonSystem(start) <= Compaction.NonSystem(history + more)
    ensures Added(start, history + more) == Added(start, history) + more
  {
    hide Compaction.NonSystem;
    Compaction.NonSystemConcat(history, more);
    Compaction.NonSystemIdentity(more);
  }

  /** A message that is logged as an item and pushed. */
  lemma PushItem(start: seq<Message>, log: seq<Effect>, history: seq<Message>, e: Effect, m: Message)
    requires Faithful(start, log, history)
    requires (m.role == User || m.role == Assistant) && Spoken(e) == [m]
    ensures Faithful(start, log + [e], history + [m]) && Held(history + [m]) != []
  {
    hide Compaction.NonSystem, Shape, AddResults, SpokenIn, Spoken, Added, NoCompaction, Remembered;
    PushRemembered(start, log, history, e, m);
    ReadAppend(log, e);
    Prefix(log, e);
    SpeaksNoCompaction(e);
    if NoCompaction(log + [e]) {
      AddedMore(start, history, [m]);
      ShapeAppend(Added(start, history), m);
      ShapeAppend(SpokenIn(log), m);
    }
  }

  lemma SpeaksNoCompaction(e: Effect)
    requires Spoken(e) != []
    ensures !e.SessionCompacted? && !e.ModelCalled?
  {
  }

  lemma SaidAppend(start: seq<Message>, log: seq<Effect>, e: Effect)
    ensures Compaction.NonSystem(start) + SpokenIn(log + [e]) == Compaction.NonSystem(start) + SpokenIn(log) + Spoken(e)
  {
    hide SpokenIn, Compaction.NonSystem, Spoken;
    ReadAppend(log, e);
    Associative(Compaction.NonSystem(start), SpokenIn(log), Spoken(e));
  }

  /** The same message said and pushed. */
  lemma PushRemembered(start: seq<Message>, log: seq<Effect>, history: seq<Message>, e: Effect, m: Message)
    requires Remembered(start, log, history) && Spoken(e) == [m]
    requires m.role != System && m.role != Tool
    ensures Remembered(start, log + [e], history + [m]) && Held(history + [m]) != []
  {
    hide Compaction.NonSystem, Shape, AddResults, SpokenIn, NoCompaction, Spoken;
    SaidAppend(start, log, e);
    Prefix(log, e);
    SpeaksNoCompaction(e);
    var (before, live) := (Compaction.NonSystem(start) + SpokenIn(log), Compaction.NonSystem(history));
    Compaction.NonSystemConcat(history, [m]);
    Compaction.NonSystemIdentity([m]);
    ShapeAppend(before, m);
    ShapeAppend(live, m);
    SuffixOfConcat(Held(history), Said(start, log), [Block(Some(HeadOf(m)), multiset{})]);
  }

  // ----- batches

  /** The results of a batch, reported in one order and pushed in another. */
  lemma ResultsRemembered(start: seq<Message>, log: seq<Effect>, live: seq<Message>, calls: seq<ToolCall>,
    b: BatchRecord)
    requires Remembered(start, log, live) && Held(live) != [] && BatchTrace(calls, b)
    ensures Remembered(start, log + b.log, live + ResultMessages(b.results))
  {
    hide BatchTrace, Shape, Replay, SpokenIn, Keys, Outcomes, ResultMessages, Compaction.NonSystem, NoCompaction,
      AddResults;
    var messages := ResultMessages(b.results);
    BatchKinds(calls, b);
    BatchReadings(b.log);
    SameResults(calls, b);
    ReadConcat(log, b.log);
    ConcatNoCompaction(log, b.log);
    Compaction.NonSystemConcat(live, messages);
    Compaction.NonSystemIdentity(messages);
    var (before, spoken) := (Compaction.NonSystem(start) + SpokenIn(log), SpokenIn(b.log));
    ShapeResults(Compaction.NonSystem(live), messages);
    ShapeResults(before, spoken);
    assert Compaction.NonSystem(start) + SpokenIn(log + b.log) == before + spoken;
    SuffixWithResults(Held(live), Said(start, log), Keys(messages));
  }

  /** An assistant message as the loop puts it together. */
  predicate IsItem(m: Message) {
    m == Message(Assistant, m.content, [], m.toolCalls, None, None)
  }

  lemma AnswerIsSpoken(m: Message)
    requires IsItem(m)
    ensures Spoken(AssistantItem(m.content, m.toolCalls)) == [m]
  {
  }

  lemma TurnIsFaithful(start: seq<Message>, log: seq<Effect>, history: seq<Message>, m: Message, b: BatchRecord)
    requires Faithful(start, log, history)
    requires HasCalls(m) && BatchTrace(m.toolCalls, b) && IsItem(m)
    ensures Faithful(start, log + [AssistantItem(m.content, m.toolCalls)] + b.log,
      history + [m] + ResultMessages(b.results))
  {
    hide BatchTrace, Shape, Replay, SpokenIn, Keys, Outcomes, ResultMessages, Compaction.NonSystem, NoCompaction,
      Added, Remembered;
    var item := AssistantItem(m.content, m.toolCalls);
    TurnReadings(log, item, m.toolCalls, b);
    AnswerIsSpoken(m);
    PushItem(start, log, history, item, m);
    ResultsRemembered(start, log + [item], history + [m], m.toolCalls, b);
    if NoCompaction(log) {
      Prefix(log, item);
      var live, messages := history + [m], ResultMessages(b.results);
      BatchKinds(m.toolCalls, b);
      BatchReadings(b.log);
      SameResults(m.toolCalls, b);
      ReadConcat(log + [item], b.log);
      AddedMore(start, live, messages);
      ShapeResults(Added(start, live), messages);
      ShapeResults(SpokenIn(log + [item]), SpokenIn(b.log));
    }
  }

  // ----- steers

  lemma SteersFaithful(start: seq<Message>, log: seq<Effect>, history: seq<Message>, steers: seq<Message>)
    requires Faithful(start, log, history) && forall i :: 0 <= i < |steers| ==> steers[i].role == User
    ensures Faithful(start, log + [SteersDrained(steers)], history + steers)
  {
    hide Shape, SpokenIn, Compaction.NonSystem, Added, NoCompaction, Remembered;
    var e := SteersDrained(steers);
    SteersRemembered(start, log, history, steers);
    ReadAppend(log, e);
    Prefix(log, e);
    if NoCompaction(log) {
      AddedMore(start, history, steers);
      ShapeConcat(SpokenIn(log), steers);
      ShapeConcat(Added(start, history), steers);
    }
  }

  lemma SteersRemembered(start: seq<Message>, log: seq<Effect>, history: seq<Message>, steers: seq<Message>)
    requires Remembered(start, log, history) && forall i :: 0 <= i < |steers| ==> steers[i].role == User
    ensures Remembered(start, log + [SteersDrained(steers)], history + steers)
  {
    hide Shape, SpokenIn, Compaction.NonSystem, NoCompaction, IsSuffix;
    var e := SteersDrained(steers);
    SaidAppend(start, log, e);
    Prefix(log, e);
    Compaction.NonSystemConcat(history, steers);
    Compaction.NonSystemIdentity(steers);
    var before := Compaction.NonSystem(start) + SpokenIn(log);
    ShapeOfSuffix(before, steers);
    ShapeOfSuffix(Compaction.NonSystem(history), steers);
    SuffixOfConcat(Held(history), Said(start, log), Shape(steers));
  }

  // ----- compaction

  /** When compaction reports nothing dropped, every non-system message is still there. */
  lemma NothingDropped(history: seq<Message>, maxTokens: nat, summary: Option<string>)
    requires Compaction.Compact(history, maxTokens, summary).dropped == 0
    ensures Compaction.NonSystem(Compaction.Compact(history, maxTokens, summary).messages)
      == Compaction.NonSystem(history)
  {
    hide Compaction.Estimate, Compaction.KeepCount, Compaction.SummaryText, Compaction.SummaryCost,
      Compaction.FirstFit, Compaction.Groups, Compaction.Flatten, Compaction.NonSystem, Compaction.FirstSystem,
      Compaction.PriorSummaries;
    var groups := Compaction.Groups(Compaction.NonSystem(history));
    CompactHistory.HeadCount(history);
    if summary == None && Compaction.Estimate(history) <= maxTokens {
    } else if summary.Some? && |groups| > 1 {
      SummaryReserve.KeptWithSummary(history, maxTokens, summary.value);
    } else {
      DroppedSuffix(history, Compaction.FirstFit(groups, Compaction.Available(history, maxTokens), 0));
    }
  }

  lemma DroppedSuffix(history: seq<Message>, first: nat)
    requires first <= |Compaction.Groups(Compaction.NonSystem(history))|
    ensures var tail := Compaction.Flatten(Compaction.Groups(Compaction.NonSystem(history))[first..]);
      var head := Compaction.AsSeq(Compaction.FirstSystem(history)) + Compaction.PriorSummaries(history);
      && Compaction.NonSystem(head + tail) == tail
      && |tail| <= |Compaction.NonSystem(history)|
      && (|tail| == |Compaction.NonSystem(history)| ==> tail == Compaction.NonSystem(history))
  {
    hide Compaction.Groups, Compaction.Flatten, Compaction.NonSystem, Compaction.FirstSystem,
      Compaction.PriorSummaries;
    var system, prior := Compaction.AsSeq(Compaction.FirstSystem(history)), Compaction.PriorSummaries(history);
    var tail := Compaction.Flatten(Compaction.Groups(Compaction.NonSystem(history))[first..]);
    CompactHistory.SuffixNonSystem(history, first);
    CompactHistory.HeadIsPlain(history);
    Compaction.NonSystemConcat(system, prior);
    Compaction.NonSystemConcat(system + prior, tail);
  }

  /** A compaction keeps the groups from some group on, and at least one if there are any. */
  lemma CompactKeepsSuffix(history: seq<Message>, maxTokens: nat, summary: Option<string>) returns (first: nat)
    ensures var groups := Compaction.Groups(Compaction.NonSystem(history));
      && first <= |groups| && (groups != [] ==> first < |groups|)
      && Compaction.NonSystem(Compaction.Compact(history, maxTokens, summary).messages)
        == Compaction.Flatten(groups[first..])
  {
    hide Compaction.Estimate, Compaction.SummaryText, Compaction.SummaryCost, Compaction.Groups, Compaction.Flatten,
      Compaction.NonSystem, Compaction.FirstSystem, Compaction.PriorSummaries;
    var groups := Compaction.Groups(Compaction.NonSystem(history));
    var available := Compaction.Available(history, maxTokens);
    if summary == None && Compaction.Estimate(history) <= maxTokens {
      first := 0;
      assert groups[0..] == groups;
      Compaction.FlattenGroups(Compaction.NonSystem(history));
    } else if summary.Some? && |groups| > 1 {
      first := |groups| - Compaction.KeepCount(groups, SummaryReserve.ActualBudget(summary.value, available));
      SummaryReserve.KeptWithSummary(history, maxTokens, summary.value);
    } else {
      first := Compaction.FirstFit(groups, available, 0);
      DroppedSuffix(history, first);
    }
  }

  lemma StartsPlainly(messages: seq<Message>)
    requires WellFormed(messages)
    ensures messages != [] ==> messages[0].role != Tool
  {
  }

  /** What a compaction holds is the end of what was held, and not nothing. */
  lemma CompactionHolds(history: seq<Message>, maxTokens: nat, summary: Option<string>)
    requires WellFormed(history)
    ensures var r := Compaction.Compact(history, maxTokens, summary);
      IsSuffix(Held(r.messages), Held(history)) && (Held(history) != [] ==> Held(r.messages) != [])
  {
    hide Compaction.Compact, Compaction.Groups, Compaction.Flatten, Compaction.NonSystem, Shape, WellFormed;
    var first := CompactKeepsSuffix(history, maxTokens, summary);
    var all := Compaction.NonSystem(history);
    var groups := Compaction.Groups(all);
    var (dropped, kept) := (Compaction.Flatten(groups[..first]), Compaction.Flatten(groups[first..]));
    Compaction.NonSystemWellFormed(history);
    Compaction.SuffixWellFormed(all, first);
    StartsPlainly(kept);
    CompactHistory.SuffixNonSystem(history, first);
    ShapeOfSuffix(dropped, kept);
    if Shape(all) != [] {
      ShapeOfNothing();
      KeptSomething(all, first);
    }
  }

  lemma KeptSomething(messages: seq<Message>, first: nat)
    requires messages != [] && first < |Compaction.Groups(messages)|
    ensures Compaction.Flatten(Compaction.Groups(messages)[first..]) != []
  {
    GroupsAreNotEmpty(messages);
    var kept := Compaction.Groups(messages)[first..];
    assert kept[0] == Compaction.Groups(messages)[first];
  }

  lemma {:induction false} GroupsAreNotEmpty(messages: seq<Message>)
    ensures forall i :: 0 <= i < |Compaction.Groups(messages)| ==> Compaction.Groups(messages)[i] != []
    decreases |messages|
  {
    hide Compaction.GroupLength;
    if messages != [] {
      GroupsAreNotEmpty(messages[Compaction.GroupLength(messages)..]);
    }
  }

  lemma CompactionRemembered(start: seq<Message>, log: seq<Effect>, history: seq<Message>, maxTokens: nat,
    summary: Option<string>)
    requires WellFormed(history) && Faithful(start, log, history)
    ensures var r := Compaction.Compact(history, maxTokens, summary);
      var e := SessionCompacted(|r.messages|, r.summary, None);
      Faithful(start, if r.dropped > 0 then log + [e] else log, r.messages)
  {
    hide Compaction.Compact, Faithful, WellFormed, Held, IsSuffix;
    var r := Compaction.Compact(history, maxTokens, summary);
    CompactionHolds(history, maxTokens, summary);
    if r.dropped > 0 {
      CutIsFaithful(start, log, history, r.messages, SessionCompacted(|r.messages|, r.summary, None));
    } else {
      NothingDropped(history, maxTokens, summary);
      SameIsFaithful(start, log, history, r.messages);
    }
  }

  lemma CutIsFaithful(start: seq<Message>, log: seq<Effect>, history: seq<Message>, kept: seq<Message>, e: Effect)
    requires Faithful(start, log, history) && e.SessionCompacted?
    requires IsSuffix(Held(kept), Held(history)) && (Held(history) != [] ==> Held(kept) != [])
    ensures Faithful(start, log + [e], kept)
  {
    hide Held, IsSuffix, Shape, SpokenIn, NoCompaction, Compaction.NonSystem;
    ReadAppend(log, e);
    Prefix(log, e);
    SuffixOfSuffix(Held(kept), Held(history), Said(start, log));
  }

  lemma SameIsFaithful(start: seq<Message>, log: seq<Effect>, history: seq<Message>, kept: seq<Message>)
    requires Faithful(start, log, history) && Compaction.NonSystem(kept) == Compaction.NonSystem(history)
    ensures Faithful(start, log, kept)
  {
    hide Shape, SpokenIn, NoCompaction, Compaction.NonSystem;
  }

  // ----- since the last request

  function LastRequest(log: seq<Effect>): Option<seq<Message>> {
    if log == [] then None
    else if log[|log| - 1].ModelCalled? then Some(log[|log| - 1].messages)
    else LastRequest(log[..|log| - 1])
  }

  /** The effects since the last request. */
  function Since(log: seq<Effect>): seq<Effect> {
    if log == [] || log[|log| - 1].ModelCalled? then [] else Since(log[..|log| - 1]) + [log[|log| - 1]]
  }

  /** What the last request held, or what the run started with. */
  function Base(start: seq<Message>, log: seq<Effect>): seq<Message> {
    match LastRequest(log) case None => start case Some(messages) => messages
  }

  /** The transcript is what the last request held and everything said since. */
  ghost predicate Extends(start: seq<Message>, log: seq<Effect>, history: seq<Message>) {
    && Base(start, log) <= history
    && Shape(history[|Base(start, log)|..]) == Shape(SpokenIn(Since(log)))
  }

  lemma {:induction false} SinceMore(log: seq<Effect>, more: seq<Effect>)
    requires Requests(more) == []
    ensures Since(log + more) == Since(log) + more && LastRequest(log + more) == LastRequest(log)
  {
    hide Requests;
    if more == [] {
      assert log + more == log;
    } else {
      var last := |more| - 1;
      assert log + more == log + more[..last] + [more[last]] && more == more[..last] + [more[last]];
      ReadAppend(more[..last], more[last]);
      SinceMore(log, more[..last]);
    }
  }

  lemma StartExtends(start: seq<Message>)
    ensures Extends(start, [], start)
  {
    assert start[|start|..] == [];
  }

  lemma RequestExtends(start: seq<Message>, log: seq<Effect>, history: seq<Message>)
    ensures Extends(start, log + [ModelCalled(history)], history)
    ensures LastRequest(log + [ModelCalled(history)]) == Some(history)
    ensures SpokenIn(Since(log + [ModelCalled(history)])) == []
  {
    assert history[|history|..] == [];
  }

  /** Effects that say something, and what is pushed for it. */
  lemma SayExtends(start: seq<Message>, log: seq<Effect>, history: seq<Message>, more: seq<Effect>, said: seq<Message>)
    requires Extends(start, log, history) && Requests(more) == []
    requires forall p, q :: Shape(p) == Shape(q) ==> Shape(p + said) == Shape(q + SpokenIn(more))
    ensures Extends(start, log + more, history + said)
  {
    hide Shape, SpokenIn, Requests, Since, LastRequest;
    SinceMore(log, more);
    ReadConcat(Since(log), more);
    var base := Base(start, log);
    assert (history + said)[|base|..] == history[|base|..] + said;
  }

  lemma SameShape(said: seq<Message>)
    ensures forall p, q :: Shape(p) == Shape(q) ==> Shape(p + said) == Shape(q + said)
  {
    hide Shape, Merge;
    forall p, q | Shape(p) == Shape(q)
      ensures Shape(p + said) == Shape(q + said)
    {
      ShapeConcat(p, said);
      ShapeConcat(q, said);
    }
  }

  /** One effect, with what it says pushed as it is. */
  lemma EffectExtends(start: seq<Message>, log: seq<Effect>, history: seq<Message>, e: Effect)
    requires Extends(start, log, history) && !e.ModelCalled?
    ensures Extends(start, log + [e], history + Spoken(e))
    ensures Spoken(e) == [] ==> Extends(start, log + [e], history)
  {
    hide Shape, Extends, Requests, SpokenIn, Spoken;
    ReadOne(e, RequestOf);
    ReadOne(e, Spoken);
    assert Requests([e]) == [] by { NoRequest(e); }
    assert SpokenIn([e]) == Spoken(e) by { OneSpoken(e); }
    SameShape(Spoken(e));
    SayExtends(start, log, history, [e], Spoken(e));
    assert Spoken(e) == [] ==> history + Spoken(e) == history;
  }

  lemma NoRequest(e: Effect)
    requires !e.ModelCalled?
    ensures Requests([e]) == []
  {
    ReadOne(e, RequestOf);
  }

  lemma OneSpoken(e: Effect)
    ensures SpokenIn([e]) == Spoken(e)
  {
    ReadOne(e, Spoken);
  }

  /** A batch, with its results pushed in call order. */
  lemma BatchExtends(start: seq<Message>, log: seq<Effect>, history: seq<Message>, calls: seq<ToolCall>, b: BatchRecord)
    requires Extends(start, log, history) && BatchTrace(calls, b)
    ensures Extends(start, log + b.log, history + ResultMessages(b.results))
  {
    hide BatchTrace, Shape, AddResults, Keys, Extends, Requests, SpokenIn, Outcomes, ResultMessages;
    BatchKinds(calls, b);
    BatchReadings(b.log);
    SameResults(calls, b);
    var said := ResultMessages(b.results);
    forall p, q | Shape(p) == Shape(q)
      ensures Shape(p + said) == Shape(q + SpokenIn(b.log))
    {
      ShapeResults(p, said);
      ShapeResults(q, SpokenIn(b.log));
    }
    SayExtends(start, log, history, b.log, said);
  }
}
