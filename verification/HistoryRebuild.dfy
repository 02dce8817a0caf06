/**
  Rebuilding a history from the log, and the shape of a transcript: everything about it but the
  order of the tool results inside a batch.
 */
module HistoryRebuild {
  import opened Basics
  import opened Options
  import opened Transcript
  import opened Compaction
  import opened Journal

  // ----- the rebuild

  /** The end of what some compaction summary covers. */
  function CoveredThrough(rows: seq<(nat, Effect)>): nat {
    if rows == [] then 0
    else
      var n := CoveredThrough(rows[..|rows| - 1]);
      var e := rows[|rows| - 1].1;
      if HasSummary(e) && e.upTo.Some? then Max(n, e.upTo.value) else n
  }

  predicate HasSummary(e: Effect) {
    e.SessionCompacted? && e.summary.Some? && e.summary.value != ""
  }

  function SummaryOf(e: Effect): Message
    requires HasSummary(e)
  {
    SummaryMessage(e.summary.value)
  }

  function SummariesAfter(rows: seq<(nat, Effect)>, covered: nat): seq<Message> {
    if rows == [] then []
    else
      var (cursor, e) := rows[|rows| - 1];
      SummariesAfter(rows[..|rows| - 1], covered)
      + if HasSummary(e) && cursor > covered then [SummaryOf(e)] else []
  }

  function RowsAfter(rows: seq<(nat, Effect)>, covered: nat): seq<Message> {
    if rows == [] then []
    else
      RowsAfter(rows[..|rows| - 1], covered)
      + if rows[|rows| - 1].0 > covered then Rebuilt(rows[|rows| - 1].1) else []
  }

  /** The greatest cursor that a summary with a text covers, or 0. */
  lemma {:induction false} CoveredThroughIsGreatest(rows: seq<(nat, Effect)>)
    ensures forall i :: 0 <= i < |rows| && HasSummary(rows[i].1) && rows[i].1.upTo.Some? ==>
      rows[i].1.upTo.value <= CoveredThrough(rows)
    ensures CoveredThrough(rows) == 0
      || exists i :: 0 <= i < |rows| && HasSummary(rows[i].1) && rows[i].1.upTo == Some(CoveredThrough(rows))
  {
    if rows != [] {
      CoveredThroughIsGreatest(rows[..|rows| - 1]);
    }
  }

  /** Row by row: a summary with a text behind the covered rows comes back as the marker and its text. */
  lemma SummariesRowByRow(rows: seq<(nat, Effect)>, covered: nat)
    requires rows != []
    ensures var (cursor, e) := rows[|rows| - 1];
      SummariesAfter(rows, covered) == SummariesAfter(rows[..|rows| - 1], covered) +
        if e.SessionCompacted? && e.summary.Some? && e.summary.value != "" && cursor > covered
        then [TextMessage(System, "[Summary of earlier work]\n" + e.summary.value)] else []
  {
    assert SUMMARY_PREFIX + "\n" == "[Summary of earlier work]\n";
  }

  lemma {:induction false} RowsHaveNoSystem(rows: seq<(nat, Effect)>, covered: nat)
    ensures forall i :: 0 <= i < |RowsAfter(rows, covered)| ==> RowsAfter(rows, covered)[i].role != System
  {
    if rows != [] {
      RowsHaveNoSystem(rows[..|rows| - 1], covered);
    }
  }

  function RebuiltHistory(rows: seq<(nat, Effect)>): seq<Message> {
    var covered := CoveredThrough(rows);
    SummariesAfter(rows, covered) + RowsAfter(rows, covered)
  }

  method FindCovered(rows: seq<(nat, Effect)>) returns (covered: nat)
    ensures covered == CoveredThrough(rows)
  {
    covered := 0;
    for i := 0 to |rows|
      invariant covered == CoveredThrough(rows[..i])
    {
      assert rows[..i + 1][..i] == rows[..i];
      var e := rows[i].1;
      if HasSummary(e) {
        covered := Max(covered, match e.upTo case None => 0 case Some(cursor) => cursor);
      }
    }
    assert rows[..|rows|] == rows;
  }

  method ReadRows(rows: seq<(nat, Effect)>, covered: nat) returns (history: seq<Message>)
    ensures history == RowsAfter(rows, covered)
  {
    hide Rebuilt;
    history := [];
    for i := 0 to |rows|
      invariant history == RowsAfter(rows[..i], covered)
    {
      assert rows[..i + 1][..i] == rows[..i];
      if rows[i].0 > covered {
        history := history + Rebuilt(rows[i].1);
      }
    }
    assert rows[..|rows|] == rows;
  }

  /**
    Rows that a summary covers are skipped. No rebuilt message is a system message, so the
    summaries are inserted at the front, in order.
   */
  method HistoryFromEventRows(rows: seq<(nat, Effect)>) returns (history: seq<Message>)
    ensures history == RebuiltHistory(rows)
  {
    hide RowsAfter, CoveredThrough, HasSummary;
    var covered := FindCovered(rows);
    var entries := ReadRows(rows, covered);
    RowsHaveNoSystem(rows, covered);
    history := entries;
    var inserted := 0;
    for i := 0 to |rows|
      invariant inserted == |SummariesAfter(rows[..i], covered)|
      invariant history == SummariesAfter(rows[..i], covered) + entries
    {
      assert rows[..i + 1][..i] == rows[..i];
      if HasSummary(rows[i].1) && rows[i].0 > covered {
        var summary := SummaryOf(rows[i].1);
        history := history[..inserted] + [summary] + history[inserted..];
        inserted := inserted + 1;
      }
    }
    assert rows[..|rows|] == rows;
  }

  /** Without compaction every row is read. */
  lemma {:induction false} NothingCovered(rows: seq<(nat, Effect)>, log: seq<Effect>)
    requires |rows| == |log| && forall i :: 0 <= i < |rows| ==> rows[i].0 > 0 && rows[i].1 == log[i]
    requires NoCompaction(log)
    ensures CoveredThrough(rows) == 0 && SummariesAfter(rows, 0) == [] && RowsAfter(rows, 0) == Replay(log)
  {
    hide Rebuilt, Max, SummaryOf, RowsAfter, Replay;
    RowsReplay(rows, log);
    if rows != [] {
      var last := |rows| - 1;
      NothingCovered(rows[..last], log[..last]);
    }
  }

  /** Read from the start, the rows replay to what their events replay to. */
  lemma {:induction false} RowsReplay(rows: seq<(nat, Effect)>, log: seq<Effect>)
    requires |rows| == |log| && forall i :: 0 <= i < |rows| ==> rows[i].0 > 0 && rows[i].1 == log[i]
    ensures RowsAfter(rows, 0) == Replay(log)
  {
    hide Rebuilt;
    if rows != [] {
      var last := |rows| - 1;
      RowsReplay(rows[..last], log[..last]);
      ReadAppend(log[..last], log[last]);
      assert log == log[..last] + [log[last]];
    }
  }

  lemma {:induction false} SummariesArePlain(rows: seq<(nat, Effect)>, covered: nat)
    ensures Plain(SummariesAfter(rows, covered))
  {
    if rows != [] {
      SummariesArePlain(rows[..|rows| - 1], covered);
    }
  }

  // ----- the shape of a transcript

  /** A message that is not a tool result. */
  datatype Head = Head(role: Role, content: Option<string>, parts: seq<Part>, toolCalls: seq<ToolCall>)

  /** A tool result: its call's id, its tool's name, its text and its parts. */
  datatype ResultKey = ResultKey(
    callId: Option<string>, name: Option<string>, content: Option<string>, parts: seq<Part>)

  /** A message and the results that follow it, in no order. */
  datatype Block = Block(head: Option<Head>, results: multiset<ResultKey>)

  function HeadOf(m: Message): Head {
    Head(m.role, m.content, m.parts, m.toolCalls)
  }

  function Key(m: Message): ResultKey {
    ResultKey(m.toolCallId, m.name, m.content, m.parts)
  }

  function Keys(messages: seq<Message>): multiset<ResultKey> {
    multiset(seq(|messages|, i requires 0 <= i < |messages| => Key(messages[i])))
  }

  function AddResults(shape: seq<Block>, results: multiset<ResultKey>): seq<Block> {
    var n := |shape|;
    if results == multiset{} then shape
    else if n == 0 then [Block(None, results)]
    else shape[n - 1 := Block(shape[n - 1].head, shape[n - 1].results + results)]
  }

  function Shape(history: seq<Message>): seq<Block> {
    if history == [] then []
    else
      var m := history[|history| - 1];
      var front := Shape(history[..|history| - 1]);
      if m.role == Tool then AddResults(front, multiset{Key(m)})
      else front + [Block(Some(HeadOf(m)), multiset{})]
  }

  lemma ShapeAppend(p: seq<Message>, m: Message)
    ensures Shape(p + [m]) ==
      if m.role == Tool then AddResults(Shape(p), multiset{Key(m)})
      else Shape(p) + [Block(Some(HeadOf(m)), multiset{})]
  {
    assert (p + [m])[..|p|] == p;
  }

  lemma AddTwice(shape: seq<Block>, r: multiset<ResultKey>, s: multiset<ResultKey>)
    ensures AddResults(AddResults(shape, r), s) == AddResults(shape, r + s)
  {
    if r == multiset{} {
      assert r + s == s;
    } else if s == multiset{} {
      assert r + s == r;
    } else {
      var x :| x in r;
      assert x in r + s;
      if |shape| > 0 {
        var last := shape[|shape| - 1];
        assert last.results + r + s == last.results + (r + s);
      }
    }
  }

  lemma ShapeNothing(p: seq<Message>)
    ensures Keys([]) == multiset{} && AddResults(Shape(p), multiset{}) == Shape(p)
  {
  }

  lemma {:induction false} ShapeResults(p: seq<Message>, results: seq<Message>)
    requires forall i :: 0 <= i < |results| ==> results[i].role == Tool
    ensures Shape(p + results) == AddResults(Shape(p), Keys(results))
  {
    hide AddResults, Keys, Shape;
    ShapeNothing(p);
    if results == [] {
      assert p + results == p;
    } else {
      var last := |results| - 1;
      ShapeResults(p, results[..last]);
      ShapeAppend(p + results[..last], results[last]);
      assert p + results == p + results[..last] + [results[last]];
      KeysAppend(results[..last], results[last]);
      assert results == results[..last] + [results[last]];
      AddTwice(Shape(p), Keys(results[..last]), multiset{Key(results[last])});
    }
  }

  lemma KeysAppend(p: seq<Message>, m: Message)
    ensures Keys(p + [m]) == Keys(p) + multiset{Key(m)}
  {
    var q := p + [m];
    assert seq(|q|, i requires 0 <= i < |q| => Key(q[i])) == seq(|p|, i requires 0 <= i < |p| => Key(p[i])) + [Key(m)];
  }

  /** The shape of a transcript from the shapes of its two parts: results that lead the second
      part belong to the last message of the first. */
  function Merge(p: seq<Block>, q: seq<Block>): seq<Block> {
    if q == [] then p
    else if q[0].head == None then AddResults(p, q[0].results) + q[1..]
    else p + q
  }

  /** Results go to the last block only. */
  lemma AddToLast(p: seq<Block>, q: seq<Block>, results: multiset<ResultKey>)
    requires q != []
    ensures p + AddResults(q, results) == AddResults(p + q, results)
    ensures AddResults(q, results)[0].head == q[0].head
    ensures |q| > 1 ==> AddResults(q, results) == [q[0]] + AddResults(q[1..], results)
  {
  }

  lemma MergeResults(p: seq<Block>, q: seq<Block>, results: multiset<ResultKey>)
    requires results != multiset{}
    ensures Merge(p, AddResults(q, results)) == AddResults(Merge(p, q), results)
  {
    if q == [] {
      assert AddResults(q, results) == [Block(None, results)];
    } else if q[0].head.Some? {
      AddToLast(p, q, results);
    } else if |q| == 1 {
      MergeOneBlock(p, q[0].results, results);
      assert q == [Block(None, q[0].results)];
    } else {
      MergeManyBlocks(p, q, results);
    }
  }

  lemma MergeOneBlock(p: seq<Block>, r: multiset<ResultKey>, s: multiset<ResultKey>)
    requires s != multiset{}
    ensures Merge(p, AddResults([Block(None, r)], s)) == AddResults(Merge(p, [Block(None, r)]), s)
  {
    AddTwice(p, r, s);
    assert AddResults([Block(None, r)], s) == [Block(None, r + s)];
    hide AddResults;
  }

  lemma MergeManyBlocks(p: seq<Block>, q: seq<Block>, results: multiset<ResultKey>)
    requires |q| > 1 && q[0].head == None
    ensures Merge(p, AddResults(q, results)) == AddResults(Merge(p, q), results)
  {
    hide AddResults;
    var front := AddResults(p, q[0].results);
    AddToLast(p, q, results);
    AddToLast(front, q[1..], results);
    assert AddResults(q, results)[1..] == AddResults(q[1..], results);
  }

  lemma {:induction false} ShapeConcat(p: seq<Message>, q: seq<Message>)
    ensures Shape(p + q) == Merge(Shape(p), Shape(q))
  {
    hide AddResults, Shape;
    if q == [] {
      assert p + q == p && Shape(q) == [] by { ShapeOfNothing(); }
    } else {
      var last := |q| - 1;
      ShapeConcat(p, q[..last]);
      assert p + q == p + q[..last] + [q[last]] && q == q[..last] + [q[last]];
      ShapeAppend(p + q[..last], q[last]);
      ShapeAppend(q[..last], q[last]);
      MergeResults(Shape(p), Shape(q[..last]), multiset{Key(q[last])});
    }
  }

  lemma ShapeOfNothing()
    ensures Shape([]) == []
  {
  }

  // ----- suffixes of a shape

  ghost predicate IsSuffix<T>(s: seq<T>, t: seq<T>) {
    s == t || (t != [] && IsSuffix(s, t[1..]))
  }

  lemma {:induction false} SuffixParts<T>(s: seq<T>, t: seq<T>)
    ensures IsSuffix(s, t) <==> |s| <= |t| && s == t[|t| - |s|..]
  {
    if s != t && t != [] {
      SuffixParts(s, t[1..]);
    }
  }

  lemma SuffixOfConcat<T>(s: seq<T>, t: seq<T>, more: seq<T>)
    requires IsSuffix(s, t)
    ensures IsSuffix(s + more, t + more)
  {
    hide IsSuffix;
    SuffixParts(s, t);
    SuffixParts(s + more, t + more);
  }

  /** A suffix of a suffix. */
  lemma SuffixOfSuffix<T>(r: seq<T>, s: seq<T>, t: seq<T>)
    requires IsSuffix(r, s) && IsSuffix(s, t)
    ensures IsSuffix(r, t)
  {
    hide IsSuffix;
    SuffixParts(r, s);
    SuffixParts(s, t);
    SuffixParts(r, t);
  }

  /** Results go to the last block, which a non-empty suffix shares. */
  lemma SuffixWithResults(s: seq<Block>, t: seq<Block>, results: multiset<ResultKey>)
    requires IsSuffix(s, t) && s != []
    ensures IsSuffix(AddResults(s, results), AddResults(t, results)) && AddResults(s, results) != []
  {
    hide IsSuffix;
    SuffixParts(s, t);
    assert t == t[..|t| - |s|] + s;
    AddToLast(t[..|t| - |s|], s, results);
    SuffixParts(AddResults(s, results), AddResults(t, results));
  }

  /** A transcript that does not start with a result starts a block of its own. */
  lemma {:induction false} ShapeStarts(messages: seq<Message>)
    requires messages != [] && messages[0].role != Tool
    ensures Shape(messages) != [] && Shape(messages)[0].head.Some?
  {
    hide AddResults, Shape;
    var last := |messages| - 1;
    assert messages == messages[..last] + [messages[last]];
    ShapeAppend(messages[..last], messages[last]);
    ShapeOfNothing();
    if last > 0 {
      ShapeStarts(messages[..last]);
      if messages[last].role == Tool {
        AddToLast([], Shape(messages[..last]), multiset{Key(messages[last])});
        SuffixWithResults(Shape(messages[..last]), Shape(messages[..last]), multiset{Key(messages[last])});
      }
    }
  }

  /** The shape of what follows is a suffix of the shape of the whole. */
  lemma ShapeOfSuffix(p: seq<Message>, q: seq<Message>)
    requires q != [] ==> q[0].role != Tool
    ensures IsSuffix(Shape(q), Shape(p + q)) && (q != [] ==> Shape(q) != [])
    ensures Shape(p + q) == Shape(p) + Shape(q)
  {
    hide Shape, AddResults;
    ShapeConcat(p, q);
    ShapeOfNothing();
    if q != [] {
      ShapeStarts(q);
    }
    SuffixParts(Shape(q), Shape(p + q));
  }

  // ----- what the rows of the store keep of a message

  /** Image parts are not stored, and a failed result is stored as its error code only. */
  function Fade(m: Message): Message {
    if m.role == Tool then m.(content := None, parts := []) else m.(parts := [])
  }

  function Faded(messages: seq<Message>): (r: seq<Message>)
    ensures |r| == |messages|
  {
    seq(|messages|, i requires 0 <= i < |messages| => Fade(messages[i]))
  }

  lemma FadedConcat(p: seq<Message>, q: seq<Message>)
    ensures Faded(p + q) == Faded(p) + Faded(q)
  {
  }

  /** The shape of a transcript, but for what the rows do not keep. */
  function StoredShape(messages: seq<Message>): seq<Block> {
    Shape(Faded(messages))
  }

  function FadeKey(k: ResultKey): ResultKey {
    k.(content := None, parts := [])
  }

  ghost function FadeKeys(keys: multiset<ResultKey>): multiset<ResultKey> {
    if keys == multiset{} then multiset{}
    else
      var k :| k in keys;
      FadeKeys(keys - multiset{k}) + multiset{FadeKey(k)}
  }

  lemma TakeTwo(keys: multiset<ResultKey>, a: ResultKey, b: ResultKey)
    requires a in keys && b in keys && a != b
    ensures b in keys - multiset{a} && a in keys - multiset{b}
    ensures keys - multiset{a} - multiset{b} == keys - multiset{b} - multiset{a}
    ensures |keys - multiset{a}| == |keys| - 1 == |keys - multiset{b}|
  {
  }

  lemma FadeSome(keys: multiset<ResultKey>) returns (k: ResultKey)
    requires keys != multiset{}
    ensures k in keys && FadeKeys(keys) == FadeKeys(keys - multiset{k}) + multiset{FadeKey(k)}
  {
    hide FadeKey;
    k :| k in keys && FadeKeys(keys) == FadeKeys(keys - multiset{k}) + multiset{FadeKey(k)};
  }

  lemma Commute(m: multiset<ResultKey>, a: multiset<ResultKey>, b: multiset<ResultKey>)
    ensures m + a + b == m + b + a
  {
  }

  /** Whatever key is faded first. */
  lemma {:induction false} FadeOneKey(keys: multiset<ResultKey>, k: ResultKey)
    requires k in keys
    ensures FadeKeys(keys) == FadeKeys(keys - multiset{k}) + multiset{FadeKey(k)}
    decreases |keys|
  {
    hide FadeKeys, FadeKey;
    var first := FadeSome(keys);
    if first != k {
      TakeTwo(keys, first, k);
      FadeOneKey(keys - multiset{first}, k);
      FadeOneKey(keys - multiset{k}, first);
      Commute(FadeKeys(keys - multiset{first} - multiset{k}), multiset{FadeKey(k)}, multiset{FadeKey(first)});
    }
  }

  lemma FadeKeyAdded(keys: multiset<ResultKey>, k: ResultKey)
    ensures FadeKeys(keys + multiset{k}) == FadeKeys(keys) + multiset{FadeKey(k)}
    ensures FadeKeys(multiset{k}) == multiset{FadeKey(k)}
  {
    FadeOneKey(keys + multiset{k}, k);
    assert keys + multiset{k} - multiset{k} == keys;
    FadeOneKey(multiset{k}, k);
    assert multiset{k} - multiset{k} == multiset{};
  }

  ghost function FadeBlock(b: Block): Block {
    Block(match b.head case None => None case Some(h) => Some(h.(parts := [])), FadeKeys(b.results))
  }

  ghost function FadeBlocks(shape: seq<Block>): (r: seq<Block>)
    ensures |r| == |shape|
  {
    seq(|shape|, i requires 0 <= i < |shape| => FadeBlock(shape[i]))
  }

  lemma FadeResult(shape: seq<Block>, k: ResultKey)
    ensures FadeBlocks(AddResults(shape, multiset{k})) == AddResults(FadeBlocks(shape), multiset{FadeKey(k)})
  {
    hide FadeKeys;
    var n := |shape|;
    if n == 0 {
      FadeKeyAdded(multiset{}, k);
    } else {
      FadeKeyAdded(shape[n - 1].results, k);
    }
  }

  lemma FadeHead(shape: seq<Block>, m: Message)
    requires m.role != Tool
    ensures FadeBlocks(shape + [Block(Some(HeadOf(m)), multiset{})])
      == FadeBlocks(shape) + [Block(Some(HeadOf(Fade(m))), multiset{})]
  {
  }

  /** The shape of what the rows keep is told by the shape of the whole. */
  lemma {:induction false} FadedShape(messages: seq<Message>)
    ensures Shape(Faded(messages)) == FadeBlocks(Shape(messages))
  {
    hide Shape, AddResults, FadeBlocks;
    if messages == [] {
      assert Faded(messages) == [];
      NothingFades();
    } else {
      var (front, m) := (messages[..|messages| - 1], messages[|messages| - 1]);
      assert messages == front + [m];
      FadedShape(front);
      ShapeAppend(front, m);
      FadedConcat(front, [m]);
      assert Faded([m]) == [Fade(m)];
      ShapeAppend(Faded(front), Fade(m));
      if m.role == Tool {
        FadeResult(Shape(front), Key(m));
      } else {
        FadeHead(Shape(front), m);
      }
    }
  }

  lemma NothingFades()
    ensures FadeBlocks([]) == [] && Shape([]) == []
  {
  }

  lemma FadedSuffix(s: seq<Block>, t: seq<Block>)
    requires IsSuffix(s, t)
    ensures IsSuffix(FadeBlocks(s), FadeBlocks(t))
  {
    hide IsSuffix, FadeBlock;
    SuffixParts(s, t);
    SuffixParts(FadeBlocks(s), FadeBlocks(t));
  }

  /** What ends a shape ends it in the rows too. */
  lemma StoredSuffix(p: seq<Message>, q: seq<Message>)
    requires IsSuffix(Shape(p), Shape(q))
    ensures IsSuffix(StoredShape(p), StoredShape(q)) && (Shape(p) != [] ==> StoredShape(p) != [])
    ensures Shape(p) != [] ==> StoredShape(p)[0].head.Some? == Shape(p)[0].head.Some?
  {
    hide Shape, IsSuffix, Faded;
    FadedShape(p);
    FadedShape(q);
    FadedSuffix(Shape(p), Shape(q));
  }

  /** Messages that do not start with a result, behind others. */
  lemma StoredConcat(p: seq<Message>, q: seq<Message>)
    ensures StoredShape(p + q) == Merge(StoredShape(p), StoredShape(q))
    ensures q != [] && q[0].role != Tool ==> StoredShape(p + q) == StoredShape(p) + StoredShape(q)
  {
    hide Shape, Merge;
    FadedConcat(p, q);
    ShapeConcat(Faded(p), Faded(q));
    if q != [] && q[0].role != Tool {
      ShapeOfSuffix(Faded(p), Faded(q));
    }
  }
}
