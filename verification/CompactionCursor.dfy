/**
  How far a summary covers the rows of the store. The sink counts back over the rows that make a
  message, as many as the run will retain; what is rebuilt behind that row should be what the run
  has after the compaction.
 */
module CompactionCursor {
  import opened Basics
  import opened Options
  import opened Transcript
  import opened Compaction
  import opened CompactHistory
  import opened SummaryReserve
  import opened Journal
  import opened HistoryRebuild
  import opened StoredSteers
  import opened Recall

  /** The cursors of the rows that make a message. */
  function MessageCursors(rows: seq<(nat, Effect)>): seq<nat> {
    if rows == [] then []
    else
      MessageCursors(rows[..|rows| - 1])
      + if Rebuilt(rows[|rows| - 1].1) == [] then [] else [rows[|rows| - 1].0]
  }

  /** The element that has so many behind it. */
  function FromEnd(cursors: seq<nat>, behind: nat): Option<nat> {
    if |cursors| > behind then Some(cursors[|cursors| - behind - 1]) else None
  }

  /** The row that a summary covers up to, when so many messages are retained. */
  function CoveredCursor(rows: seq<(nat, Effect)>, retained: nat): Option<nat> {
    FromEnd(MessageCursors(rows), retained)
  }

  /** How many messages the run expects to retain when it asks for a summary. */
  function Retained(history: seq<Message>, maxTokens: nat): nat {
    Monus(|NonSystem(history)|, |NonSystem(DropCandidates(history, maxTokens))|)
  }

  ghost predicate Increasing(rows: seq<(nat, Effect)>) {
    && (forall i :: 0 <= i < |rows| ==> rows[i].0 > 0)
    && forall i, j :: 0 <= i < j < |rows| ==> rows[i].0 < rows[j].0
  }

  lemma OneMessage(e: Effect)
    ensures |Rebuilt(e)| <= 1
  {
  }

  lemma {:induction false} CursorsAreRows(rows: seq<(nat, Effect)>)
    requires Increasing(rows)
    ensures |MessageCursors(rows)| == |RowsAfter(rows, 0)|
    ensures forall c :: c in MessageCursors(rows) ==> 0 < c <= rows[|rows| - 1].0
  {
    hide Rebuilt;
    if rows != [] {
      CursorsAreRows(rows[..|rows| - 1]);
      OneMessage(rows[|rows| - 1].1);
    }
  }

  lemma CoveredAll(rows: seq<(nat, Effect)>)
    requires rows != [] && Increasing(rows)
    ensures RowsAfter(rows, rows[|rows| - 1].0) == []
  {
    NothingBehind(rows, rows[|rows| - 1].0);
  }

  lemma {:induction false} NothingBehind(rows: seq<(nat, Effect)>, covered: nat)
    requires forall i :: 0 <= i < |rows| ==> rows[i].0 <= covered
    ensures RowsAfter(rows, covered) == []
  {
    hide Rebuilt;
    if rows != [] {
      NothingBehind(rows[..|rows| - 1], covered);
    }
  }

  lemma LastRow(rows: seq<(nat, Effect)>, covered: nat)
    requires rows != []
    ensures var front := rows[..|rows| - 1];
      var last := rows[|rows| - 1];
      && (Rebuilt(last.1) == [] ==>
          RowsAfter(rows, covered) == RowsAfter(front, covered) && MessageCursors(rows) == MessageCursors(front))
      && (Rebuilt(last.1) != [] ==> MessageCursors(rows) == MessageCursors(front) + [last.0])
      && (Rebuilt(last.1) != [] && last.0 > covered ==>
          RowsAfter(rows, covered) == RowsAfter(front, covered) + [Rebuilt(last.1)[0]])
  {
    hide Rebuilt;
    OneMessage(rows[|rows| - 1].1);
  }

  lemma TailAppend<T>(s: seq<T>, x: T, n: nat)
    requires n <= |s|
    ensures (s + [x])[|s| + 1 - (n + 1)..] == s[|s| - n..] + [x]
  {
  }

  lemma OneMoreCursor(cursors: seq<nat>, c: nat, behind: nat)
    ensures FromEnd(cursors + [c], 0) == Some(c)
    ensures behind > 0 ==> FromEnd(cursors + [c], behind) == FromEnd(cursors, behind - 1)
    ensures FromEnd(cursors, behind).Some? ==> FromEnd(cursors, behind).value in cursors
  {
  }

  lemma CursorIsInside(rows: seq<(nat, Effect)>, retained: nat)
    requires Increasing(rows) && CoveredCursor(rows, retained).Some?
    ensures rows != [] && 0 < CoveredCursor(rows, retained).value <= rows[|rows| - 1].0
  {
    hide MessageCursors, FromEnd, Increasing;
    CursorsAreRows(rows);
    OneMoreCursor(MessageCursors(rows), 0, retained);
    NoCursors();
  }

  lemma NoCursors()
    ensures MessageCursors([]) == []
  {
  }

  lemma FrontIncreases(rows: seq<(nat, Effect)>)
    requires Increasing(rows) && rows != []
    ensures Increasing(rows[..|rows| - 1])
    ensures |rows| > 1 ==> rows[|rows| - 2].0 < rows[|rows| - 1].0
  {
  }

  /** Behind the covered row are the rows of the last messages, as many as are retained. */
  lemma {:induction false} RowsBehindCursor(rows: seq<(nat, Effect)>, retained: nat)
    requires Increasing(rows) && CoveredCursor(rows, retained).Some?
    ensures retained <= |RowsAfter(rows, 0)|
    ensures var stored := RowsAfter(rows, 0);
      RowsAfter(rows, CoveredCursor(rows, retained).value) == stored[|stored| - retained..]
  {
    hide Rebuilt, RowsAfter, MessageCursors, FromEnd, Increasing;
    CursorIsInside(rows, retained);
    var front := rows[..|rows| - 1];
    var last := rows[|rows| - 1];
    var covered := CoveredCursor(rows, retained).value;
    FrontIncreases(rows);
    OneMessage(last.1);
    LastRow(rows, 0);
    LastRow(rows, covered);
    OneMoreCursor(MessageCursors(front), last.0, retained);
    if Rebuilt(last.1) == [] {
      RowsBehindCursor(front, retained);
    } else if retained == 0 {
      CoveredAll(rows);
    } else {
      RowsBehindCursor(front, retained - 1);
      CursorIsInside(front, retained - 1);
      TailAppend(RowsAfter(front, 0), Rebuilt(last.1)[0], retained - 1);
    }
  }

  /** The last messages, as many as these blocks have, make these blocks. */
  ghost predicate EndsIn(messages: seq<Message>, blocks: seq<Block>) {
    var n := |ShapeRoles(blocks)|;
    n <= |messages| && Shape(messages[|messages| - n..]) == blocks
  }

  /** The messages at the end of a transcript whose shape ends with these blocks. */
  lemma {:induction false} EndOfShape(messages: seq<Message>, blocks: seq<Block>)
    requires IsSuffix(blocks, Shape(messages)) && (blocks != [] ==> blocks[0].head.Some?)
    ensures EndsIn(messages, blocks)
  {
    hide Shape, AddResults, ShapeRoles, BlockRoles, IsSuffix, EndsIn, HeadOf, Key;
    if blocks == [] {
      EndsInNothing(messages);
    } else {
      NothingEndsIn(messages, blocks);
      var (front, m) := (messages[..|messages| - 1], messages[|messages| - 1]);
      assert messages == front + [m];
      ShapeAppend(front, m);
      if m.role == Tool {
        var before := EndsWithResult(front, m, blocks);
        EndOfShape(front, before);
        ResultEnds(front, m, before);
      } else {
        var before := EndsWithHead(Shape(front), Block(Some(HeadOf(m)), multiset{}), blocks);
        EndOfShape(front, before);
        HeadEnds(front, m, before);
      }
    }
  }

  lemma NothingEndsIn(messages: seq<Message>, blocks: seq<Block>)
    requires IsSuffix(blocks, Shape(messages)) && blocks != []
    ensures messages != []
  {
    hide Shape, IsSuffix;
    SuffixParts(blocks, Shape(messages));
    ShapeOfNothing();
  }

  lemma EndsWithHead(shape: seq<Block>, b: Block, blocks: seq<Block>) returns (before: seq<Block>)
    requires IsSuffix(blocks, shape + [b]) && blocks != [] && blocks[0].head.Some?
    ensures blocks == before + [b] && IsSuffix(before, shape) && (before != [] ==> before[0].head.Some?)
  {
    hide IsSuffix;
    before := blocks[..|blocks| - 1];
    SuffixParts(blocks, shape + [b]);
    SuffixParts(before, shape);
  }

  lemma EndsInNothing(messages: seq<Message>)
    ensures EndsIn(messages, [])
  {
    assert messages[|messages|..] == [];
  }

  lemma ResultEnds(front: seq<Message>, m: Message, before: seq<Block>)
    requires EndsIn(front, before) && m.role == Tool
    ensures EndsIn(front + [m], AddResults(before, multiset{Key(m)}))
  {
    hide Shape, AddResults, ShapeRoles, BlockRoles, Key;
    var n := |ShapeRoles(before)|;
    RolesOfResult(before, Key(m));
    TailAppend(front, m, n);
    ShapeAppend(front[|front| - n..], m);
  }

  lemma HeadEnds(front: seq<Message>, m: Message, before: seq<Block>)
    requires EndsIn(front, before) && m.role != Tool
    ensures EndsIn(front + [m], before + [Block(Some(HeadOf(m)), multiset{})])
  {
    hide Shape, AddResults, ShapeRoles, BlockRoles, HeadOf;
    var n := |ShapeRoles(before)|;
    var b := Block(Some(HeadOf(m)), multiset{});
    OneMoreBlock(before, b);
    OneRole(b);
    TailAppend(front, m, n);
    ShapeAppend(front[|front| - n..], m);
  }

  lemma OneRole(b: Block)
    requires b.head.Some? && b.results == multiset{}
    ensures |BlockRoles(b)| == 1
  {
  }

  lemma EndsWithResult(front: seq<Message>, m: Message, blocks: seq<Block>) returns (before: seq<Block>)
    requires IsSuffix(blocks, AddResults(Shape(front), multiset{Key(m)})) && blocks != [] && blocks[0].head.Some?
    ensures blocks == AddResults(before, multiset{Key(m)}) && before != [] && before[0].head.Some?
    ensures IsSuffix(before, Shape(front))
  {
    hide Shape, IsSuffix;
    SuffixParts(blocks, AddResults(Shape(front), multiset{Key(m)}));
    before := Shape(front)[|Shape(front)| - |blocks|..];
    SuffixParts(before, Shape(front));
  }

  /** As many messages as two suffixes of the groups hold: they are the same suffix. */
  lemma {:induction false} SameLength(groups: seq<seq<Message>>, i: nat, j: nat)
    requires forall k :: 0 <= k < |groups| ==> groups[k] != []
    requires i <= j <= |groups| && |Flatten(groups[i..])| == |Flatten(groups[j..])|
    ensures i == j
    decreases j - i
  {
    hide Flatten;
    if i < j {
      LongerSuffix(groups, i, j);
    }
  }

  lemma {:induction false} LongerSuffix(groups: seq<seq<Message>>, i: nat, j: nat)
    requires forall k :: 0 <= k < |groups| ==> groups[k] != []
    requires i < j <= |groups|
    ensures |Flatten(groups[i..])| > |Flatten(groups[j..])|
    decreases j - i
  {
    assert groups[i..][1..] == groups[i + 1..];
    if i + 1 < j {
      LongerSuffix(groups, i + 1, j);
    }
  }

  /** The real cost of the summary keeps the groups that the reserve was to keep. */
  predicate KeepsAsExpected(history: seq<Message>, maxTokens: nat, summary: string) {
    var groups := Groups(NonSystem(history));
    var available := Available(history, maxTokens);
    KeepCount(groups, ActualBudget(summary, available)) == KeepCount(groups, CandidateBudget(available))
  }

  /** The groups kept with a summary, and the groups that were not to be summarised. */
  lemma KeptAndExpected(history: seq<Message>, maxTokens: nat, summary: string)
    requires |Groups(NonSystem(history))| > 1
    ensures var groups := Groups(NonSystem(history));
      var available := Available(history, maxTokens);
      var expected := Flatten(groups[|groups| - KeepCount(groups, CandidateBudget(available))..]);
      var kept := NonSystem(Compact(history, maxTokens, Some(summary)).messages);
      && Retained(history, maxTokens) == |expected|
      && (|kept| == |expected| <==> KeepsAsExpected(history, maxTokens, summary))
      && (|kept| == |expected| ==> kept == expected)
  {
    hide Estimate, Flatten, Groups, SummaryCost, Reserve, Compact, DropCandidates, KeepFrom, NonSystem,
      CandidateBudget, ActualBudget, Available;
    var groups := Groups(NonSystem(history));
    var available := Available(history, maxTokens);
    var expected := KeepCount(groups, CandidateBudget(available));
    var kept := KeepCount(groups, ActualBudget(summary, available));
    CandidatesNonSystem(history, maxTokens);
    KeptWithSummary(history, maxTokens, summary);
    SuffixNonSystem(history, |groups| - expected);
    GroupsAreNotEmpty(NonSystem(history));
    if |Flatten(groups[|groups| - expected..])| == |Flatten(groups[|groups| - kept..])| {
      if expected <= kept {
        SameLength(groups, |groups| - kept, |groups| - expected);
      } else {
        SameLength(groups, |groups| - expected, |groups| - kept);
      }
    }
  }

  /** What was expected to be retained ends what is held, and starts an exchange. */
  lemma ExpectedEndsHeld(history: seq<Message>, first: nat)
    requires WellFormed(history) && 0 < first < |Groups(NonSystem(history))|
    ensures var expected := Flatten(Groups(NonSystem(history))[first..]);
      && IsSuffix(Shape(expected), Held(history)) && |expected| < |NonSystem(history)|
      && Shape(expected) != [] && Shape(expected)[0].head.Some?
  {
    hide Groups, Flatten, NonSystem, Shape, WellFormed, IsSuffix;
    var all := NonSystem(history);
    var (older, expected) := (Flatten(Groups(all)[..first]), Flatten(Groups(all)[first..]));
    NonSystemWellFormed(history);
    SuffixWellFormed(all, first);
    StartsPlainly(expected);
    SuffixNonSystem(history, first);
    SomethingIsKept(all, first);
    ShapeOfSuffix(older, expected);
    ShapeStarts(expected);
  }

  lemma SomethingIsKept(messages: seq<Message>, first: nat)
    requires 0 < first < |Groups(messages)|
    ensures Flatten(Groups(messages)[..first]) != [] && Flatten(Groups(messages)[first..]) != []
  {
    hide Groups;
    GroupsAreNotEmpty(messages);
    var groups := Groups(messages);
    assert groups[..first][0] == groups[0] && groups[first..][0] == groups[first];
  }

  lemma ShapeCounts(messages: seq<Message>)
    ensures |ShapeRoles(Shape(messages))| == |messages|
  {
    hide Shape, ShapeRoles;
    ShapeTellsRoles(messages);
  }

  /** What is held, as the rows keep it. */
  function HeldStored(history: seq<Message>): seq<Block> {
    StoredShape(NonSystem(history))
  }

  lemma HeldIsStored(history: seq<Message>, stored: seq<Message>)
    requires WellFormed(history) && IsSuffix(HeldStored(history), StoredShape(stored))
    ensures |NonSystem(history)| <= |stored|
  {
    hide NonSystem, Shape, IsSuffix, WellFormed, ShapeRoles;
    NonSystemWellFormed(history);
    var held := NonSystem(history);
    StartsPlainly(held);
    ShapeCounts(Faded(held));
    ShapeOfNothing();
    if held != [] {
      ShapeStarts(Faded(held));
      EndOfShape(Faded(stored), HeldStored(history));
    }
  }

  lemma FadedTail(messages: seq<Message>, n: nat)
    requires n <= |messages|
    ensures Faded(messages)[n..] == Faded(messages[n..])
  {
  }

  /**
    When what is held is the end of what is stored, the rows behind the covered one replay to the
    compacted transcript exactly when the real cost of the summary keeps the groups that the reserve
    was to keep.
   */
  lemma CutReplaysExactly(rows: seq<(nat, Effect)>, history: seq<Message>, maxTokens: nat, summary: string)
    requires Increasing(rows) && WellFormed(history)
    requires DropCandidates(history, maxTokens) != []
    requires IsSuffix(HeldStored(history), StoredShape(RowsAfter(rows, 0)))
    ensures var covered := CoveredCursor(rows, Retained(history, maxTokens));
      && covered.Some?
      && (StoredShape(RowsAfter(rows, covered.value)) == HeldStored(Compact(history, maxTokens, Some(summary)).messages)
          <==> KeepsAsExpected(history, maxTokens, summary))
  {
    hide Estimate, Flatten, Groups, SummaryCost, Reserve, Compact, KeepFrom, NonSystem, ActualBudget, Available,
      Shape, WellFormed, IsSuffix, ShapeRoles, RowsAfter, MessageCursors, Faded;
    var groups := Groups(NonSystem(history));
    var first := |groups| - KeepCount(groups, CandidateBudget(Available(history, maxTokens)));
    var expected := Flatten(groups[first..]);
    var stored := RowsAfter(rows, 0);
    var kept := NonSystem(Compact(history, maxTokens, Some(summary)).messages);
    KeptAndExpected(history, maxTokens, summary);
    ExpectedEndsHeld(history, first);
    StoredSuffix(expected, NonSystem(history));
    SuffixOfSuffix(StoredShape(expected), HeldStored(history), StoredShape(stored));
    EndOfShape(Faded(stored), StoredShape(expected));
    ShapeCounts(Faded(expected));
    ShapeCounts(Faded(kept));
    HeldIsStored(history, stored);
    FadedTail(stored, |stored| - |expected|);
    CursorsAreRows(rows);
    RowsBehindCursor(rows, |expected|);
  }
}
