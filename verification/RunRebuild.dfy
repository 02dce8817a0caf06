/**
  The history that is rebuilt from the rows of the store after a run: when it has the shape of the
  live transcript, and when it is well-formed.
 */
module RunRebuild {
  import opened Basics
  import opened Options
  import opened Transcript
  import Compaction
  import opened Journal
  import opened HistoryRebuild
  import opened ToolBatch
  import opened RunReplay
  import opened StoredSteers
  import opened Recall
  import opened CompactionCursor
  import opened Protocol
  import opened RunLaws
  import opened AgentLoop

  /** What the sink writes of an event: it fills in how far a summary covers the rows. */
  predicate WrittenAs(e: Effect, row: Effect) {
    row == e || (e.SessionCompacted? && row.SessionCompacted? && row == e.(upTo := row.upTo))
  }

  ghost predicate WrittenRows(rows: seq<(nat, Effect)>, events: seq<Effect>) {
    |rows| == |events| && forall i :: 0 <= i < |rows| ==> WrittenAs(events[i], rows[i].1)
  }

  /** `rows` are what the store holds of a log, under increasing positive cursors. */
  ghost predicate Stores(rows: seq<(nat, Effect)>, log: seq<Effect>) {
    Increasing(rows) && WrittenRows(rows, Events(log))
  }

  /** How many rows the cursor `covered` covers. */
  function Cut(rows: seq<(nat, Effect)>, covered: nat): (n: nat)
    ensures n <= |rows|
  {
    if rows == [] then 0
    else if rows[|rows| - 1].0 > covered then Cut(rows[..|rows| - 1], covered)
    else |rows|
  }

  /** The events that no summary covers. */
  function Uncovered(rows: seq<(nat, Effect)>, log: seq<Effect>): seq<Effect>
    requires |rows| == |Events(log)|
  {
    Events(log)[Cut(rows, CoveredThrough(rows))..]
  }

  lemma {:induction false} CoveredRows(rows: seq<(nat, Effect)>, covered: nat)
    requires forall i :: 0 <= i < |rows| ==> rows[i].0 <= covered
    ensures RowsAfter(rows, covered) == [] && Cut(rows, covered) == |rows|
  {
    hide Rebuilt;
    if rows != [] {
      CoveredRows(rows[..|rows| - 1], covered);
    }
  }

  lemma WrittenRebuilds(e: Effect, row: Effect)
    requires WrittenAs(e, row)
    ensures Rebuilt(row) == Rebuilt(e)
  {
  }

  lemma LastWritten(rows: seq<(nat, Effect)>, events: seq<Effect>, covered: nat)
    requires WrittenRows(rows, events) && rows != []
    ensures var front := rows[..|rows| - 1];
      && WrittenRows(front, events[..|rows| - 1])
      && (rows[|rows| - 1].0 > covered ==>
          && RowsAfter(rows, covered) == RowsAfter(front, covered) + Rebuilt(events[|rows| - 1])
          && Cut(rows, covered) == Cut(front, covered))
  {
    hide Rebuilt;
    WrittenRebuilds(events[|rows| - 1], rows[|rows| - 1].1);
  }

  /** The rows behind a cursor replay to what their events replay to. */
  lemma {:induction false} RowsAfterCut(rows: seq<(nat, Effect)>, events: seq<Effect>, covered: nat)
    requires |rows| == |events| && WrittenRows(rows, events) && Increasing(rows)
    ensures RowsAfter(rows, covered) == Replay(events[Cut(rows, covered)..])
  {
    hide Rebuilt, WrittenRows, Increasing, Replay, RowsAfter, Cut;
    if rows == [] {
      NothingWritten(rows, events, covered);
    } else {
      var last := |rows| - 1;
      if rows[last].0 > covered {
        LastWritten(rows, events, covered);
        FrontIncreases(rows);
        RowsAfterCut(rows[..last], events[..last], covered);
        var rest := events[..last][Cut(rows[..last], covered)..];
        ReadAppend(rest, events[last]);
        assert events[Cut(rows, covered)..] == rest + [events[last]];
      } else {
        NothingWritten(rows, events, covered);
      }
    }
  }

  lemma NothingWritten(rows: seq<(nat, Effect)>, events: seq<Effect>, covered: nat)
    requires WrittenRows(rows, events) && Increasing(rows)
    requires rows == [] || rows[|rows| - 1].0 <= covered
    ensures RowsAfter(rows, covered) == [] == Replay(events[Cut(rows, covered)..])
  {
    hide RowsAfter, Cut;
    CoveredRows(rows, covered);
    assert events[|rows|..] == [];
  }

  /**
    The rebuilt history of any log, summaries included, is well-formed exactly when in what no
    summary covers every call has its result, in call order, with no user item in between.
   */
  lemma RebuiltWellFormedExactly(log: seq<Effect>, rows: seq<(nat, Effect)>)
    requires Stores(rows, log)
    ensures var rest := Uncovered(rows, log);
      WellFormed(RebuiltHistory(rows)) <==> Settled(rest) && AnsweredInOrder(rest) && Undisturbed(rest)
  {
    hide Replay, Events, CoveredThrough, RowsAfter, SummariesAfter, WellFormed, AnsweredInOrder, Undisturbed, Settled,
      Cut, WrittenAs;
    var covered := CoveredThrough(rows);
    RowsAfterCut(rows, Events(log), covered);
    ReplayWellFormedExactly(Uncovered(rows, log));
    SummariesArePlain(rows, covered);
    PlainIsWellFormed(SummariesAfter(rows, covered));
    WellFormedConcat(SummariesAfter(rows, covered), RowsAfter(rows, covered));
  }

  lemma RunIsFaithful(limits: Limits, start: seq<Message>, log: seq<Effect>, outcome: RunOutcome)
    requires RunRecord(limits, start, log, outcome)
    ensures Faithful(start, log, outcome.history) && Settled(log)
  {
  }

  lemma NotARunsOwn(stage: Stage, e: Effect)
    requires e.SteerStored?
    ensures Next(stage, e) == Stage.Rejected
  {
  }

  /** Whatever steers a run was given, the store can have taken each right before its drain. */
  lemma RunCanBeStored(limits: Limits, start: seq<Message>, log: seq<Effect>, outcome: RunOutcome)
    requires RunRecord(limits, start, log, outcome)
    ensures StoredRun(StoredAtDrains(log), log) && SaidAtOnce(0, StoredAtDrains(log))
  {
    hide Faithful, Settled, StageOf, Next, WellFormed, FailureIsDue, Overdrawn, FromCompaction, StoredRun, SaidAtOnce,
      StoredAtDrains;
    forall i | 0 <= i < |log|
      ensures !log[i].SteerStored? && (log[i].SteersDrained? ==> AreSteers(log[i].steers))
    {
      AcceptedStep(log, i);
      if log[i].SteerStored? {
        NotARunsOwn(StageOf(log[..i]), log[i]);
      }
      LawfulEverywhere(limits, start, log, i);
    }
    EveryRunCanBeStored(log);
  }

  /** What is stored of a run has a result for every call, wherever its steers are stored. */
  lemma StoredIsSettled(earlier: seq<Effect>, full: seq<Effect>, log: seq<Effect>)
    requires Settled(earlier) && Settled(log) && WithoutSteers(full) == log
    ensures Settled(earlier + full) && Settled(Events(earlier + full))
  {
    hide Replay, Events, OwedFrom, WithoutSteers;
    OwedWithoutSteers(full, 0);
    SettledConcat(earlier, full);
    EventsReplay(earlier + full);
  }

  /**
    The history rebuilt after a run, with its earlier runs and with the messages that were submitted
    to it stored at any place, is well-formed exactly when no report is due where the covered rows
    end, and behind it the reports after every answer name the calls in call order and no user item
    is stored before the last of them.
   */
  lemma RebuiltRunWellFormedExactly(limits: Limits, start: seq<Message>, log: seq<Effect>, outcome: RunOutcome,
    earlier: seq<Effect>, full: seq<Effect>, rows: seq<(nat, Effect)>)
    requires RunRecord(limits, start, log, outcome) && Settled(earlier)
    requires WithoutSteers(full) == log && Stores(rows, earlier + full)
    ensures var events := Events(earlier + full);
      var cut := Cut(rows, CoveredThrough(rows));
      WellFormed(RebuiltHistory(rows)) <==>
        Settled(events[..cut]) && AnsweredInOrder(events[cut..]) && Undisturbed(events[cut..])
    ensures CoveredThrough(rows) == 0 ==>
      (WellFormed(RebuiltHistory(rows)) <==> AnsweredInOrder(earlier + full) && Undisturbed(earlier + full))
  {
    hide RunRecord, Replay, Events, CoveredThrough, RebuiltHistory, WellFormed, AnsweredInOrder, Undisturbed, Settled,
      Cut, WrittenAs, WithoutSteers;
    var (events, cut) := (Events(earlier + full), Cut(rows, CoveredThrough(rows)));
    RunIsFaithful(limits, start, log, outcome);
    StoredIsSettled(earlier, full, log);
    RebuiltWellFormedExactly(earlier + full, rows);
    assert events == events[..cut] + events[cut..];
    SettledSplit(events[..cut], events[cut..]);
    if CoveredThrough(rows) == 0 {
      NothingIsCovered(rows);
      assert events[0..] == events;
      EventsReplay(earlier + full);
      ReplayWellFormedExactly(events);
      ReplayWellFormedExactly(earlier + full);
    }
  }

  lemma {:induction false} NothingIsCovered(rows: seq<(nat, Effect)>)
    requires forall i :: 0 <= i < |rows| ==> rows[i].0 > 0
    ensures Cut(rows, 0) == 0
  {
    if rows != [] {
      NothingIsCovered(rows[..|rows| - 1]);
    }
  }

  /** Without compaction every row is read. */
  lemma NothingCompacted(rows: seq<(nat, Effect)>, log: seq<Effect>)
    requires Stores(rows, log) && NoCompaction(log)
    ensures RebuiltHistory(rows) == Replay(log) && CoveredThrough(rows) == 0
  {
    hide Replay, Events, CoveredThrough, RowsAfter, SummariesAfter;
    EventsReplay(log);
    assert forall i :: 0 <= i < |rows| ==> rows[i].1 == Events(log)[i];
    NothingCovered(rows, Events(log));
  }

  /**
    A call that was answered in order, and a steer that was accepted while its tool ran: the history
    that is rebuilt from the rows is not well-formed.
   */
  lemma SteerBreaksRebuild() returns (m: Message, b: BatchRecord, full: seq<Effect>, rows: seq<(nat, Effect)>)
    ensures HasCalls(m) && BatchTrace(m.toolCalls, b)
    ensures StoredRun(full, [AssistantItem(m.content, m.toolCalls)] + b.log) && Stores(rows, full)
    ensures CoveredThrough(rows) == 0 && AnsweredInOrder(full) && !WellFormed(RebuiltHistory(rows))
  {
    hide BatchTrace, StoredRun, AnsweredInOrder, Undisturbed, NoCompaction, Events, WellFormed, Replay;
    m, b, full := SteerInsideBatch();
    var events := Events(full);
    rows := seq(|events|, i requires 0 <= i < |events| => (i + 1, events[i]));
    NothingCompacted(rows, full);
  }

  /**
    Replay inverts emission. After a run without compaction, the history rebuilt from the rows has
    the shape of the live transcript, but for what the rows do not keep, when nothing is said between
    the moment a steer is stored and its drain; and only then, if no steer was stored before the
    user's own item.
   */
  lemma ReplayInvertsEmission(limits: Limits, start: seq<Message>, log: seq<Effect>, outcome: RunOutcome,
    earlier: seq<Effect>, full: seq<Effect>, rows: seq<(nat, Effect)>)
    requires RunRecord(limits, start, log, outcome)
    requires StoredRun(full, log) && Stores(rows, earlier + full) && NoCompaction(earlier + full)
    requires StoredShape(Replay(earlier)) == HeldStored(start)
    ensures SaidAtOnce(0, full) ==> StoredShape(RebuiltHistory(rows)) == HeldStored(outcome.history)
    ensures UserFirst(false, full) ==>
      (StoredShape(RebuiltHistory(rows)) == HeldStored(outcome.history) <==> SaidAtOnce(0, full))
  {
    hide Shape, Merge, Replay, SpokenIn, Events, Compaction.NonSystem, RunRecord, RebuiltHistory, NoCompaction, Exact,
      IsSuffix, Faded, WithoutSteers, Drained, SaidAtOnce, UserFirst, Stores;
    RunIsFaithful(limits, start, log, outcome);
    NothingCompacted(rows, earlier + full);
    ReadConcat(earlier, full);
    SpokenWithoutSteers(full);
    StoredAsSaidExactly(full);
    ConcatNoCompaction(earlier, full);
    NoCompactionWithoutSteers(full);
    FadedShape(Compaction.NonSystem(start) + SpokenIn(log));
    FadedShape(Compaction.NonSystem(outcome.history));
    StoredConcat(Replay(earlier), Replay(full));
    StoredConcat(Compaction.NonSystem(start), SpokenIn(log));
    SameFront(earlier, full, start, log);
  }

  lemma {:induction false} NoCompactionWithoutSteers(full: seq<Effect>)
    requires NoCompaction(full)
    ensures NoCompaction(WithoutSteers(full))
  {
    if full != [] {
      assert forall i :: 0 <= i < |full[1..]| ==> full[1..][i] == full[i + 1];
      NoCompactionWithoutSteers(full[1..]);
      ConcatNoCompaction(OwnEffect(full[0]), WithoutSteers(full[1..]));
    }
  }

  /** With the same roles in front, the whole has the same roles exactly when the rest has. */
  lemma SameFront(earlier: seq<Effect>, full: seq<Effect>, start: seq<Message>, log: seq<Effect>)
    requires StoredShape(Replay(earlier)) == HeldStored(start)
    ensures StoredShape(Replay(earlier) + Replay(full)) == StoredShape(Compaction.NonSystem(start) + SpokenIn(log)) ==>
      Roles(Replay(full)) == Roles(SpokenIn(log))
  {
    hide StoredShape, Replay, SpokenIn, Compaction.NonSystem, Roles, ShapeRoles;
    var (p, q, r, s) := (Replay(earlier), Replay(full), Compaction.NonSystem(start), SpokenIn(log));
    StoredRoles(p);
    StoredRoles(r);
    StoredRoles(p + q);
    StoredRoles(r + s);
    RolesConcat(p, q);
    RolesConcat(r, s);
    SameRest(Roles(p), Roles(q), Roles(s));
  }

  lemma StoredRoles(messages: seq<Message>)
    ensures ShapeRoles(StoredShape(messages)) == Roles(messages)
  {
    hide Shape, Faded, ShapeRoles;
    ShapeTellsRoles(Faded(messages));
    FadedRoles(messages);
  }

  // ----- the rows at a compaction

  lemma OpensWithUser(log: seq<Effect>)
    requires StageOf(log) == Ready
    ensures |log| > 2 && log[0].RunStarted? && log[1].UserItem?
  {
    assert |log| > 0;
    StepAt(log, 0);
    assert log[..0] == [] && log[..|log|] == log;
    if |log| > 1 {
      BeforeTheEnd(log, 1);
      StepAt(log, 1);
      if |log| > 2 {
        BeforeTheEnd(log, 2);
      }
    }
  }

  /** Once the steers are drained, what was said in the run starts with the user's item. */
  lemma SaidStartsWithUser(log: seq<Effect>)
    requires StageOf(log) == Ready
    ensures SpokenIn(log) != [] && SpokenIn(log)[0].role == User
  {
    hide SpokenIn, StageOf;
    OpensWithUser(log);
    ReadHead(log);
    ReadHead(log[1..]);
  }

  /** What the run holds is the end of what the store holds, when the steers are said where they are
      stored. */
  lemma HeldEndsStored(start: seq<Message>, log: seq<Effect>, history: seq<Message>, earlier: seq<Effect>,
    full: seq<Effect>, rows: seq<(nat, Effect)>)
    requires StageOf(log) == Ready && Faithful(start, log, history)
    requires StoredRun(full, log) && SaidAtOnce(0, full) && Stores(rows, earlier + full)
    requires IsSuffix(HeldStored(start), StoredShape(Replay(earlier)))
    ensures IsSuffix(HeldStored(history), StoredShape(RowsAfter(rows, 0)))
  {
    hide Shape, Merge, Replay, SpokenIn, Events, Compaction.NonSystem, RowsAfter, IsSuffix, StageOf, Exact, Faded,
      WithoutSteers, Drained, SaidAtOnce, WrittenAs, Cut;
    RowsAfterCut(rows, Events(earlier + full), 0);
    NothingIsCovered(rows);
    assert Events(earlier + full)[0..] == Events(earlier + full);
    EventsReplay(earlier + full);
    ReadConcat(earlier, full);
    SpokenWithoutSteers(full);
    StoredAsSaidExactly(full);
    SaidStartsWithUser(log);
    StoredConcat(Replay(earlier), Replay(full));
    StoredConcat(Replay(earlier), SpokenIn(log));
    StoredConcat(Compaction.NonSystem(start), SpokenIn(log));
    SuffixOfConcat(HeldStored(start), StoredShape(Replay(earlier)), StoredShape(SpokenIn(log)));
    StoredSuffix(Compaction.NonSystem(history), Compaction.NonSystem(start) + SpokenIn(log));
    SuffixOfSuffix(HeldStored(history), StoredShape(Compaction.NonSystem(start) + SpokenIn(log)),
      StoredShape(Replay(earlier) + Replay(full)));
  }

  /**
    At a compaction with a summary, steers said where they are stored: the rows behind the row that
    the sink takes for covered replay to the compacted transcript exactly when the real cost of the
    summary keeps the groups that the reserve was to keep.
   */
  lemma CompactedRowsReplayExactly(limits: Limits, start: seq<Message>, log: seq<Effect>, history: seq<Message>,
    usage: Usage, costComplete: bool, summary: string, earlier: seq<Effect>, full: seq<Effect>,
    rows: seq<(nat, Effect)>)
    requires Running(limits, start, log, history, usage, costComplete) && StageOf(log) == Ready
    requires Compaction.DropCandidates(history, limits.contextTokens) != []
    requires StoredRun(full, log) && SaidAtOnce(0, full) && Stores(rows, earlier + full)
    requires IsSuffix(HeldStored(start), StoredShape(Replay(earlier)))
    ensures var covered := CoveredCursor(rows, Retained(history, limits.contextTokens));
      var compacted := Compaction.Compact(history, limits.contextTokens, Some(summary)).messages;
      && covered.Some?
      && (StoredShape(RowsAfter(rows, covered.value)) == HeldStored(compacted)
          <==> KeepsAsExpected(history, limits.contextTokens, summary))
  {
    hide Faithful, Settled, Lawful, StageOf, WithoutSteers, Drained, SaidAtOnce, WrittenAs, IsSuffix, Shape, Replay,
      RowsAfter, Compaction.Compact, Compaction.DropCandidates, Compaction.Groups, Compaction.NonSystem,
      MessageCursors, HeldStored, StoredShape;
    HeldEndsStored(start, log, history, earlier, full, rows);
    CutReplaysExactly(rows, history, limits.contextTokens, summary);
  }

  /** The row of a compaction, once it is written: what is rebuilt from then on. */
  lemma CompactionRowRebuilds(rows: seq<(nat, Effect)>, cursor: nat, retained: nat, text: string, covered: nat)
    requires Increasing(rows + [(cursor, SessionCompacted(retained, Some(text), Some(covered)))])
    requires text != "" && CoveredThrough(rows) <= covered < cursor
    ensures RebuiltHistory(rows + [(cursor, SessionCompacted(retained, Some(text), Some(covered)))]) ==
      SummariesAfter(rows, covered)
      + [TextMessage(System, "[Summary of earlier work]\n" + text)] + RowsAfter(rows, covered)
  {
    hide Increasing;
    var all := rows + [(cursor, SessionCompacted(retained, Some(text), Some(covered)))];
    assert all[..|rows|] == rows;
    SummariesRowByRow(all, covered);
  }

  lemma OneMoreRow(rows: seq<(nat, Effect)>, cursor: nat, e: Effect)
    requires Increasing(rows) && cursor > 0 && (rows == [] || rows[|rows| - 1].0 < cursor)
    ensures Increasing(rows + [(cursor, e)])
  {
  }

  lemma RebuiltNonSystem(rows: seq<(nat, Effect)>, covered: nat, injected: Message)
    requires injected.role == System
    ensures Compaction.NonSystem(SummariesAfter(rows, covered) + [injected] + RowsAfter(rows, covered))
         == RowsAfter(rows, covered)
  {
    hide SummariesAfter, RowsAfter;
    var (summaries, messages) := (SummariesAfter(rows, covered), RowsAfter(rows, covered));
    RowsHaveNoSystem(rows, covered);
    SummariesAreSystem(rows, covered);
    Compaction.NonSystemIdentity(messages);
    Compaction.NonSystemConcat(summaries + [injected], messages);
    Compaction.NonSystemConcat(summaries, [injected]);
    assert [injected][1..] == [];
  }

  lemma {:induction false} SummariesAreSystem(rows: seq<(nat, Effect)>, covered: nat)
    ensures Compaction.NonSystem(SummariesAfter(rows, covered)) == []
  {
    if rows != [] {
      var last := |rows| - 1;
      SummariesAreSystem(rows[..last], covered);
      var more := if HasSummary(rows[last].1) && rows[last].0 > covered then [SummaryOf(rows[last].1)] else [];
      Compaction.NonSystemConcat(SummariesAfter(rows[..last], covered), more);
      if more != [] {
        assert more[1..] == [];
      }
    }
  }

  /**
    A restart right after a summarised compaction of a run whose steers are said where they are
    stored: the summary that was injected comes back behind those no newer row covers, and behind it
    come the messages the run goes on with, exactly when the real cost of the summary keeps the
    groups that the reserve was to keep.
   */
  lemma RestartAfterCompaction(limits: Limits, start: seq<Message>, log: seq<Effect>, history: seq<Message>,
    usage: Usage, costComplete: bool, summary: string, earlier: seq<Effect>, full: seq<Effect>,
    rows: seq<(nat, Effect)>, covered: nat, cursor: nat)
    requires Running(limits, start, log, history, usage, costComplete) && StageOf(log) == Ready
    requires Compaction.DropCandidates(history, limits.contextTokens) != [] && summary != ""
    requires StoredRun(full, log) && SaidAtOnce(0, full) && Stores(rows, earlier + full)
    requires IsSuffix(HeldStored(start), StoredShape(Replay(earlier)))
    requires CoveredCursor(rows, Retained(history, limits.contextTokens)) == Some(covered)
    requires CoveredThrough(rows) <= covered && (rows == [] || rows[|rows| - 1].0 < cursor)
    ensures var r := Compaction.Compact(history, limits.contextTokens, Some(summary));
      var rebuilt := RebuiltHistory(rows + [(cursor, SessionCompacted(|r.messages|, r.summary, Some(covered)))]);
      && r.summary.Some?
      && rebuilt == SummariesAfter(rows, covered)
        + [TextMessage(System, "[Summary of earlier work]\n" + r.summary.value)] + RowsAfter(rows, covered)
      && (StoredShape(Compaction.NonSystem(rebuilt)) == HeldStored(r.messages)
          <==> KeepsAsExpected(history, limits.contextTokens, summary))
  {
    hide Running, StageOf, StoredRun, SaidAtOnce, WrittenRows, IsSuffix, StoredShape, Replay, RowsAfter,
      SummariesAfter, CoveredThrough, RebuiltHistory, Compaction.Compact, Compaction.DropCandidates,
      Compaction.NonSystem, MessageCursors, KeepsAsExpected, HeldStored, CoveredCursor, Increasing;
    CompactedRowsReplayExactly(limits, start, log, history, usage, costComplete, summary, earlier, full, rows);
    var r := Compaction.Compact(history, limits.contextTokens, Some(summary));
    SomethingDropped(history, limits.contextTokens, summary);
    CursorIsInside(rows, Retained(history, limits.contextTokens));
    OneMoreRow(rows, cursor, SessionCompacted(|r.messages|, r.summary, Some(covered)));
    CompactionRowRebuilds(rows, cursor, |r.messages|, r.summary.value, covered);
    RebuiltNonSystem(rows, covered, TextMessage(System, "[Summary of earlier work]\n" + r.summary.value));
  }

  /** There is something to summarise only when there is more than one group. */
  lemma SomethingDropped(history: seq<Message>, maxTokens: nat, summary: string)
    requires Compaction.DropCandidates(history, maxTokens) != [] && summary != ""
    ensures var r := Compaction.Compact(history, maxTokens, Some(summary)); r.summary.Some? && r.summary.value != ""
  {
    hide Compaction.Estimate, Compaction.Flatten, Compaction.Groups, Compaction.NonSystem;
  }
}
