/**
  Unified diffs: the text is split into lines, the edit script becomes entries, changed entries
  and their context become hunks with headers. A patch tool that trusts nothing but the hunks
  (`Apply`) is the reference the hunks are proved against.
 */
module UnifiedDiff {
  import opened Options
  import opened EditScripts
  import LineDiff

  const CONTEXT := 3

  datatype Entry = Entry(op: Op, text: string)

  /** Entries lo..hi-1 of the diff. */
  datatype Range = Range(lo: nat, hi: nat)

  datatype Hunk = Hunk(oldStart: nat, oldLen: nat, newStart: nat, newLen: nat, lines: seq<Entry>)

  /** `Coarse` is the fallback: one hunk that removes every old line and adds every new one. */
  datatype Diff = Same | Coarse(hunk: Hunk) | Patch(hunks: seq<Hunk>)

  // ----- lines

  function Split(text: string): (lines: seq<string>)
    ensures lines != []
  {
    if text == "" then [""]
    else
      var rest := Split(text[1..]);
      if text[0] == '\n' then [""] + rest else [[text[0]] + rest[0]] + rest[1..]
  }

  /** An empty text has no lines. */
  function Lines(text: string): seq<string> {
    if text == "" then [] else Split(text)
  }

  function Join(lines: seq<string>): string {
    if lines == [] then "" else if |lines| == 1 then lines[0] else lines[0] + "\n" + Join(lines[1..])
  }

  /** The lines hold no line feed, and joining them with one gives the text back. */
  lemma {:induction false} JoinSplit(text: string)
    ensures Join(Split(text)) == text
    ensures forall k :: 0 <= k < |Split(text)| ==> '\n' !in Split(text)[k]
  {
    if text != "" {
      JoinSplit(text[1..]);
      var rest := Split(text[1..]);
      if text[0] == '\n' {
        assert ([""] + rest)[1..] == rest;
      } else {
        assert ([[text[0]] + rest[0]] + rest[1..])[1..] == rest[1..];
      }
    }
  }

  /** Lines without a line feed come back when they are joined with one and split again. */
  lemma {:induction false} SplitJoin(lines: seq<string>)
    requires lines != [] && forall k :: 0 <= k < |lines| ==> '\n' !in lines[k]
    ensures Split(Join(lines)) == lines
  {
    var (line, more) := (lines[0], lines[1..]);
    if more == [] {
      SplitPrefix(line, "");
      assert line + "" == line;
    } else {
      SplitJoin(more);
      var rest := "\n" + Join(more);
      assert rest[0] == '\n' && rest[1..] == Join(more);
      SplitPrefix(line, rest);
      assert line + "\n" + Join(more) == line + rest && line + "" == line;
    }
  }

  lemma {:induction false} SplitPrefix(line: string, rest: string)
    requires '\n' !in line
    ensures Split(line + rest) == [line + Split(rest)[0]] + Split(rest)[1..]
  {
    if line == "" {
      assert line + rest == rest;
      assert line + Split(rest)[0] == Split(rest)[0];
    } else {
      assert (line + rest)[1..] == line[1..] + rest;
      SplitPrefix(line[1..], rest);
      assert [line[0]] + (line[1..] + Split(rest)[0]) == line + Split(rest)[0];
    }
  }

  /** None for the empty text, and otherwise one more than its line feeds. */
  function LineCount(text: string): nat {
    if text == "" then 0 else 1 + multiset(text)['\n']
  }

  /** So many lines, without a line feed, that joined with one make the text. */
  predicate AreLinesOf(lines: seq<string>, text: string) {
    && |lines| == LineCount(text) && Join(lines) == text
    && forall k :: 0 <= k < |lines| ==> '\n' !in lines[k]
  }

  lemma {:induction false} SplitCounts(text: string)
    ensures |Split(text)| == 1 + multiset(text)['\n']
  {
    if text != "" {
      SplitCounts(text[1..]);
      assert text == [text[0]] + text[1..];
    }
  }

  /** The lines of a text are the only ones there are. */
  lemma LinesExactly(text: string, lines: seq<string>)
    ensures AreLinesOf(lines, text) <==> lines == Lines(text)
  {
    JoinSplit(text);
    SplitCounts(text);
    if AreLinesOf(lines, text) && lines != [] {
      SplitJoin(lines);
    }
  }

  // ----- the two sides of a list of entries

  /** The lines of the entries whose op is not `skip`. */
  function Side(entries: seq<Entry>, skip: Op): seq<string> {
    if entries == [] then []
    else (if entries[0].op == skip then [] else [entries[0].text]) + Side(entries[1..], skip)
  }

  function OldSide(entries: seq<Entry>): seq<string> {
    Side(entries, Insert)
  }

  function NewSide(entries: seq<Entry>): seq<string> {
    Side(entries, Delete)
  }

  lemma {:induction false} SideOfConcat(p: seq<Entry>, q: seq<Entry>, skip: Op)
    ensures Side(p + q, skip) == Side(p, skip) + Side(q, skip)
  {
    if p == [] {
      assert p + q == q;
    } else {
      assert (p + q)[1..] == p[1..] + q;
      SideOfConcat(p[1..], q, skip);
    }
  }

  lemma SidesOfConcat(p: seq<Entry>, q: seq<Entry>)
    ensures OldSide(p + q) == OldSide(p) + OldSide(q)
    ensures NewSide(p + q) == NewSide(p) + NewSide(q)
  {
    SideOfConcat(p, q, Insert);
    SideOfConcat(p, q, Delete);
  }

  lemma SidesOfAppend(p: seq<Entry>, e: Entry)
    ensures OldSide(p + [e]) == OldSide(p) + if e.op == Insert then [] else [e.text]
    ensures NewSide(p + [e]) == NewSide(p) + if e.op == Delete then [] else [e.text]
  {
    SidesOfConcat(p, [e]);
    assert Side([e], Insert) == if e.op == Insert then [] else [e.text];
    assert Side([e], Delete) == if e.op == Delete then [] else [e.text];
  }

  lemma {:induction false} KeptSidesAgree(entries: seq<Entry>)
    requires forall e :: e in entries ==> e.op == Keep
    ensures OldSide(entries) == NewSide(entries)
  {
    if entries != [] {
      KeptSidesAgree(entries[1..]);
    }
  }

  // ----- the reference: a patch tool

  /** Applies the hunks to `a[pos..]` when `done` new lines are out; None if a hunk does not fit. */
  function Apply(hunks: seq<Hunk>, a: seq<string>, pos: nat, done: nat): Option<seq<string>>
    requires pos <= |a|
  {
    if hunks == [] then Some(a[pos..])
    else
      var h := hunks[0];
      var from, to := h.oldStart - (if h.oldLen == 0 then 0 else 1), h.newStart - (if h.newLen == 0 then 0 else 1);
      if !(pos <= from && from + h.oldLen <= |a|) then None
      else if to != done + (from - pos) then None
      else if a[from..from + h.oldLen] != OldSide(h.lines) || h.newLen != |NewSide(h.lines)| then None
      else
        match Apply(hunks[1..], a, from + h.oldLen, to + h.newLen)
        case None => None
        case Some(rest) => Some(a[pos..from] + NewSide(h.lines) + rest)
  }

  // ----- the coarse fallback

  function All(op: Op, lines: seq<string>): seq<Entry> {
    seq(|lines|, i requires 0 <= i < |lines| => Entry(op, lines[i]))
  }

  /** Its header places both sides at line 1, whatever they hold. */
  function CoarseHunk(a: seq<string>, b: seq<string>): Hunk {
    Hunk(1, |a|, 1, |b|, All(Delete, a) + All(Insert, b))
  }

  method BuildCoarse(a: seq<string>, b: seq<string>) returns (hunk: Hunk)
    ensures hunk == CoarseHunk(a, b)
  {
    var lines: seq<Entry> := [];
    for i := 0 to |a|
      invariant lines == All(Delete, a[..i])
    {
      lines := lines + [Entry(Delete, a[i])];
    }
    assert a[..|a|] == a && b[..|b|] == b;
    for j := 0 to |b|
      invariant lines == All(Delete, a) + All(Insert, b[..j])
    {
      assert All(Insert, b[..j + 1]) == All(Insert, b[..j]) + [Entry(Insert, b[j])];
      lines := lines + [Entry(Insert, b[j])];
    }
    hunk := Hunk(1, |a|, 1, |b|, lines);
  }

  lemma {:induction false} SideOfAll(op: Op, lines: seq<string>, skip: Op)
    ensures Side(All(op, lines), skip) == if op == skip then [] else lines
  {
    if lines != [] {
      SideOfAll(op, lines[1..], skip);
      assert All(op, lines)[1..] == All(op, lines[1..]);
    }
  }

  /** The fallback hunk holds all of both sides. */
  lemma CoarseSides(a: seq<string>, b: seq<string>)
    ensures OldSide(CoarseHunk(a, b).lines) == a && NewSide(CoarseHunk(a, b).lines) == b
  {
    hide Side, All;
    SidesOfConcat(All(Delete, a), All(Insert, b));
    SideOfAll(Delete, a, Insert);
    SideOfAll(Delete, a, Delete);
    SideOfAll(Insert, b, Insert);
    SideOfAll(Insert, b, Delete);
  }

  /** One hunk that starts on line 1 of both sides and replaces the whole of `a`. */
  lemma ApplyAll(h: Hunk, a: seq<string>)
    requires h.oldStart == 1 == h.newStart && h.oldLen == |a| && h.newLen == |NewSide(h.lines)|
    requires OldSide(h.lines) == a
    ensures Apply([h], a, 0, 0) == if a == [] || NewSide(h.lines) == [] then None else Some(NewSide(h.lines))
  {
    hide OldSide, NewSide;
    if a != [] && NewSide(h.lines) != [] {
      assert a[0..0 + |a|] == a && [h][1..] == [];
      assert Apply([], a, |a|, h.newLen) == Some(a[|a|..]);
      assert a[0..0] + NewSide(h.lines) + a[|a|..] == NewSide(h.lines);
    }
  }

  /** The fallback patches `a` into `b` exactly when neither side is empty: an empty side would
      have to be placed at line 0. */
  lemma CoarsePatchesExactly(a: seq<string>, b: seq<string>)
    ensures Apply([CoarseHunk(a, b)], a, 0, 0) == Some(b) <==> a != [] && b != []
  {
    hide OldSide, NewSide, Apply;
    CoarseSides(a, b);
    ApplyAll(CoarseHunk(a, b), a);
  }

  // ----- entries and ranges

  function OpsOf(entries: seq<Entry>): seq<Op> {
    seq(|entries|, i requires 0 <= i < |entries| => entries[i].op)
  }

  ghost predicate Changed(entries: seq<Entry>, i: int) {
    0 <= i < |entries| && entries[i].op != Keep
  }

  /** Some change before entry `upto` has `k` in its context window. */
  ghost predicate NearChange(entries: seq<Entry>, upto: int, k: int) {
    0 <= k < |entries| && exists i :: 0 <= i < upto && Changed(entries, i) && i - 3 <= k <= i + 3
  }

  ghost predicate Covered(ranges: seq<Range>, k: int) {
    exists r :: 0 <= r < |ranges| && ranges[r].lo <= k < ranges[r].hi
  }

  /** The ranges are nonempty, in order, and at least one entry lies between two of them. */
  ghost predicate Separated(ranges: seq<Range>, count: nat) {
    && (forall r :: 0 <= r < |ranges| ==> ranges[r].lo < ranges[r].hi <= count)
    && forall r, s :: 0 <= r < s < |ranges| ==> ranges[r].hi < ranges[s].lo
  }

  /** The line counts on both sides before each entry. */
  ghost predicate PositionsOf(entries: seq<Entry>, positions: seq<(nat, nat)>) {
    && |positions| == |entries|
    && forall i :: 0 <= i < |entries| ==> positions[i] == (|OldSide(entries[..i])|, |NewSide(entries[..i])|)
  }

  method BuildEntries(ops: seq<Op>, a: seq<string>, b: seq<string>) returns (entries: seq<Entry>)
    requires Transforms(ops, a, b)
    ensures OldSide(entries) == a && NewSide(entries) == b && OpsOf(entries) == ops
  {
    entries := [];
    var i, j := 0, 0;
    assert a[0..] == a && b[0..] == b;
    for p := 0 to |ops|
      invariant 0 <= i <= |a| && 0 <= j <= |b|
      invariant Transforms(ops[p..], a[i..], b[j..])
      invariant OldSide(entries) == a[..i] && NewSide(entries) == b[..j]
      invariant OpsOf(entries) == ops[..p]
    {
      assert ops[p..][1..] == ops[p + 1..];
      assert i < |a| ==> a[i..][1..] == a[i + 1..] && a[..i + 1] == a[..i] + [a[i]];
      assert j < |b| ==> b[j..][1..] == b[j + 1..] && b[..j + 1] == b[..j] + [b[j]];
      var entry := if ops[p] == Insert then Entry(Insert, b[j]) else Entry(ops[p], a[i]);
      SidesOfAppend(entries, entry);
      entries := entries + [entry];
      match ops[p]
      case Keep => i, j := i + 1, j + 1;
      case Delete => i := i + 1;
      case Insert => j := j + 1;
    }
    assert ops[|ops|..] == [];
    assert a[..i] == a && b[..j] == b;
  }

  method BuildPositions(entries: seq<Entry>) returns (positions: seq<(nat, nat)>)
    ensures PositionsOf(entries, positions)
  {
    positions := [];
    var ai: nat, bi: nat := 0, 0;
    for p := 0 to |entries|
      invariant |positions| == p
      invariant ai == |OldSide(entries[..p])| && bi == |NewSide(entries[..p])|
      invariant forall i :: 0 <= i < p ==> positions[i] == (|OldSide(entries[..i])|, |NewSide(entries[..i])|)
    {
      assert entries[..p + 1] == entries[..p] + [entries[p]];
      SidesOfAppend(entries[..p], entries[p]);
      positions := positions + [(ai, bi)];
      match entries[p].op
      case Keep => ai, bi := ai + 1, bi + 1;
      case Delete => ai := ai + 1;
      case Insert => bi := bi + 1;
    }
  }

  function WindowLo(index: nat): nat {
    if index < CONTEXT then 0 else index - CONTEXT
  }

  function WindowHi(index: nat, count: nat): nat {
    if index + CONTEXT + 1 < count then index + CONTEXT + 1 else count
  }

  lemma NearOneMore(entries: seq<Entry>, index: nat, k: int)
    requires index < |entries|
    ensures NearChange(entries, index + 1, k) <==>
      NearChange(entries, index, k)
      || (Changed(entries, index) && WindowLo(index) <= k < WindowHi(index, |entries|))
  {
    if Changed(entries, index) && WindowLo(index) <= k < WindowHi(index, |entries|) {
      assert index - CONTEXT <= k <= index + CONTEXT;
    }
  }

  /** What one changed entry does to the ranges: its window joins the last range or starts a new one. */
  function AddWindow(ranges: seq<Range>, lo: nat, hi: nat): seq<Range> {
    var n := |ranges|;
    if n > 0 && lo <= ranges[n - 1].hi
    then ranges[n - 1 := Range(ranges[n - 1].lo, if ranges[n - 1].hi < hi then hi else ranges[n - 1].hi)]
    else ranges + [Range(lo, hi)]
  }

  lemma CoveredOneMore(ranges: seq<Range>, lo: nat, hi: nat, k: int)
    requires ranges != [] ==> ranges[|ranges| - 1].lo <= lo
    ensures Covered(AddWindow(ranges, lo, hi), k) <==> Covered(ranges, k) || lo <= k < hi
  {
    var after := AddWindow(ranges, lo, hi);
    if Covered(ranges, k) {
      var r :| 0 <= r < |ranges| && ranges[r].lo <= k < ranges[r].hi;
      assert after[r].lo <= k < after[r].hi;
    }
    if lo <= k < hi {
      assert after[|after| - 1].lo <= k < after[|after| - 1].hi;
    }
    if Covered(after, k) {
      var r :| 0 <= r < |after| && after[r].lo <= k < after[r].hi;
      assert r < |ranges| - 1 ==> ranges[r] == after[r];
    }
  }

  lemma NothingCovered(entries: seq<Entry>)
    ensures forall k :: !Covered([], k) && !NearChange(entries, 0, k)
  {
  }

  /** Every changed entry with its context; windows that touch are one range. */
  method BuildRanges(entries: seq<Entry>) returns (ranges: seq<Range>)
    ensures Separated(ranges, |entries|)
    ensures forall k :: Covered(ranges, k) <==> NearChange(entries, |entries|, k)
  {
    hide Covered, NearChange;
    ranges := [];
    NothingCovered(entries);
    for index := 0 to |entries|
      invariant Separated(ranges, |entries|)
      invariant forall k :: Covered(ranges, k) <==> NearChange(entries, index, k)
      invariant ranges != [] ==> ranges[|ranges| - 1].lo <= WindowLo(index)
      invariant ranges != [] ==> ranges[|ranges| - 1].hi <= index + CONTEXT
    {
      ghost var before := ranges;
      if entries[index].op != Keep {
        var lo, hi := WindowLo(index), WindowHi(index, |entries|);
        if ranges != [] && lo <= ranges[|ranges| - 1].hi {
          var last := ranges[|ranges| - 1];
          ranges := ranges[|ranges| - 1 := Range(last.lo, if last.hi < hi then hi else last.hi)];
        } else {
          ranges := ranges + [Range(lo, hi)];
        }
        assert ranges == AddWindow(before, lo, hi);
      }
      forall k
        ensures Covered(ranges, k) <==> NearChange(entries, index + 1, k)
      {
        NearOneMore(entries, index, k);
        CoveredOneMore(before, WindowLo(index), WindowHi(index, |entries|), k);
      }
    }
  }

  // ----- hunks

  /** The hunk of one range: its lines, and a header that counts and places them on both sides. */
  function HunkOf(entries: seq<Entry>, r: Range): Hunk
    requires r.lo < r.hi <= |entries|
  {
    var lines := entries[r.lo..r.hi];
    var oldLen, newLen := |OldSide(lines)|, |NewSide(lines)|;
    Hunk(|OldSide(entries[..r.lo])| + (if oldLen == 0 then 0 else 1), oldLen,
         |NewSide(entries[..r.lo])| + (if newLen == 0 then 0 else 1), newLen, lines)
  }

  function HunksOf(entries: seq<Entry>, ranges: seq<Range>): seq<Hunk>
    requires forall r :: 0 <= r < |ranges| ==> ranges[r].lo < ranges[r].hi <= |entries|
  {
    if ranges == [] then [] else [HunkOf(entries, ranges[0])] + HunksOf(entries, ranges[1..])
  }

  lemma {:induction false} HunksOfAppend(entries: seq<Entry>, ranges: seq<Range>, r: Range)
    requires forall i :: 0 <= i < |ranges| ==> ranges[i].lo < ranges[i].hi <= |entries|
    requires r.lo < r.hi <= |entries|
    ensures HunksOf(entries, ranges + [r]) == HunksOf(entries, ranges) + [HunkOf(entries, r)]
  {
    if ranges != [] {
      assert (ranges + [r])[1..] == ranges[1..] + [r];
      HunksOfAppend(entries, ranges[1..], r);
    }
  }

  method CountLines(lines: seq<Entry>) returns (oldLen: nat, newLen: nat)
    ensures oldLen == |OldSide(lines)| && newLen == |NewSide(lines)|
  {
    oldLen, newLen := 0, 0;
    for i := 0 to |lines|
      invariant oldLen == |OldSide(lines[..i])| && newLen == |NewSide(lines[..i])|
    {
      assert lines[..i + 1] == lines[..i] + [lines[i]];
      SidesOfAppend(lines[..i], lines[i]);
      match lines[i].op
      case Keep => oldLen, newLen := oldLen + 1, newLen + 1;
      case Delete => oldLen := oldLen + 1;
      case Insert => newLen := newLen + 1;
    }
    assert lines[..|lines|] == lines;
  }

  method BuildHunks(entries: seq<Entry>, positions: seq<(nat, nat)>, ranges: seq<Range>) returns (hunks: seq<Hunk>)
    requires PositionsOf(entries, positions) && Separated(ranges, |entries|)
    ensures hunks == HunksOf(entries, ranges)
  {
    hide OldSide, NewSide;
    hunks := [];
    for r := 0 to |ranges|
      invariant hunks == HunksOf(entries, ranges[..r])
    {
      var lo, hi := ranges[r].lo, ranges[r].hi;
      var oldLen, newLen := CountLines(entries[lo..hi]);
      var oldStart := if oldLen == 0 then positions[lo].0 else positions[lo].0 + 1;
      var newStart := if newLen == 0 then positions[lo].1 else positions[lo].1 + 1;
      HunksOfAppend(entries, ranges[..r], ranges[r]);
      assert ranges[..r + 1] == ranges[..r] + [ranges[r]];
      hunks := hunks + [Hunk(oldStart, oldLen, newStart, newLen, entries[lo..hi])];
    }
    assert ranges[..|ranges|] == ranges;
  }

  /** Cutting a list of entries cuts both sides at the counts before the cut. */
  lemma SidesAtCut(entries: seq<Entry>, lo: nat, hi: nat)
    requires lo <= hi <= |entries|
    ensures |OldSide(entries[..hi])| == |OldSide(entries[..lo])| + |OldSide(entries[lo..hi])| <= |OldSide(entries)|
    ensures |NewSide(entries[..hi])| == |NewSide(entries[..lo])| + |NewSide(entries[lo..hi])|
    ensures OldSide(entries)[|OldSide(entries[..lo])|..|OldSide(entries[..hi])|] == OldSide(entries[lo..hi])
  {
    assert entries[..hi] == entries[..lo] + entries[lo..hi];
    assert entries == entries[..hi] + entries[hi..];
    SidesOfConcat(entries[..lo], entries[lo..hi]);
    SidesOfConcat(entries[..hi], entries[hi..]);
  }

  /** Where no change is covered, the entries up to `hi` are the same on both sides. */
  lemma KeptStretch(entries: seq<Entry>, ranges: seq<Range>, lo: nat, hi: nat)
    requires lo <= hi <= |entries|
    requires forall k :: lo <= k && Changed(entries, k) ==> Covered(ranges, k)
    requires forall r :: 0 <= r < |ranges| ==> hi <= ranges[r].lo
    ensures OldSide(entries[lo..hi]) == NewSide(entries[lo..hi])
  {
    forall k | lo <= k < hi
      ensures entries[k].op == Keep
    {
      assert Changed(entries, k) ==> Covered(ranges, k);
    }
    KeptSidesAgree(entries[lo..hi]);
  }

  lemma CoveredByRest(entries: seq<Entry>, ranges: seq<Range>, e: nat)
    requires ranges != [] && Separated(ranges, |entries|) && e <= ranges[0].hi
    requires forall k :: e <= k && Changed(entries, k) ==> Covered(ranges, k)
    ensures forall k :: ranges[0].hi <= k && Changed(entries, k) ==> Covered(ranges[1..], k)
  {
    forall k | ranges[0].hi <= k && Changed(entries, k)
      ensures Covered(ranges[1..], k)
    {
      assert Covered(ranges, k);
      var r :| 0 <= r < |ranges| && ranges[r].lo <= k < ranges[r].hi;
      assert ranges[1..][r - 1] == ranges[r];
    }
  }

  /** The hunk of one range takes both sides from entry `e`, past kept lines only, to the range's end. */
  lemma HunkApplies(entries: seq<Entry>, r: Range, rest: seq<Hunk>, e: nat)
    requires e <= r.lo < r.hi <= |entries|
    requires OldSide(entries[e..r.lo]) == NewSide(entries[e..r.lo])
    ensures |OldSide(entries[..e])| <= |OldSide(entries[..r.hi])| <= |OldSide(entries)|
    ensures Apply([HunkOf(entries, r)] + rest, OldSide(entries), |OldSide(entries[..e])|, |NewSide(entries[..e])|)
         == match Apply(rest, OldSide(entries), |OldSide(entries[..r.hi])|, |NewSide(entries[..r.hi])|)
            case None => None
            case Some(more) => Some(NewSide(entries[e..r.lo]) + NewSide(entries[r.lo..r.hi]) + more)
  {
    hide OldSide, NewSide;
    SidesAtCut(entries, e, r.lo);
    SidesAtCut(entries, r.lo, r.hi);
    assert ([HunkOf(entries, r)] + rest)[1..] == rest;
  }

  /** From any entry on, hunks that cover every later change patch the old side into the new one. */
  lemma {:induction false} HunksPatch(entries: seq<Entry>, ranges: seq<Range>, e: nat)
    requires e <= |entries| && Separated(ranges, |entries|)
    requires forall r :: 0 <= r < |ranges| ==> e <= ranges[r].lo
    requires forall k :: e <= k && Changed(entries, k) ==> Covered(ranges, k)
    ensures |OldSide(entries[..e])| <= |OldSide(entries)|
    ensures Apply(HunksOf(entries, ranges), OldSide(entries), |OldSide(entries[..e])|, |NewSide(entries[..e])|)
         == Some(NewSide(entries[e..]))
    decreases |ranges|
  {
    hide OldSide, NewSide, Covered, Changed, Apply, HunkOf;
    if ranges == [] {
      NoMoreHunks(entries, e);
    } else {
      var lo, hi := ranges[0].lo, ranges[0].hi;
      KeptStretch(entries, ranges, e, lo);
      CoveredByRest(entries, ranges, e);
      HunksPatch(entries, ranges[1..], hi);
      HunkApplies(entries, ranges[0], HunksOf(entries, ranges[1..]), e);
      assert entries[e..] == entries[e..lo] + entries[lo..hi] + entries[hi..];
      SidesOfConcat(entries[e..lo], entries[lo..hi]);
      SidesOfConcat(entries[e..lo] + entries[lo..hi], entries[hi..]);
    }
  }

  lemma NoMoreHunks(entries: seq<Entry>, e: nat)
    requires e <= |entries|
    requires forall k :: e <= k && Changed(entries, k) ==> Covered([], k)
    ensures |OldSide(entries[..e])| <= |OldSide(entries)|
    ensures Apply([], OldSide(entries), |OldSide(entries[..e])|, |NewSide(entries[..e])|) == Some(NewSide(entries[e..]))
  {
    hide OldSide, NewSide, Covered, Changed;
    var n := |entries|;
    assert entries[..n] == entries && entries[e..n] == entries[e..];
    SidesAtCut(entries, e, n);
    KeptStretch(entries, [], e, n);
    assert OldSide(entries)[|OldSide(entries[..e])|..|OldSide(entries)|] == OldSide(entries)[|OldSide(entries[..e])|..];
  }

  /** Too many lines, or too far apart, for the search. */
  ghost predicate BeyondLimits(a: seq<string>, b: seq<string>) {
    |a| + |b| > 20_000 || forall ops :: Transforms(ops, a, b) ==> Cost(ops) > 1_024
  }

  /** Hunks of an empty old text count and place nothing on the old side, and likewise for the new. */
  predicate PlacedForEmpty(hunks: seq<Hunk>, before: string, after: string) {
    forall i :: 0 <= i < |hunks| ==>
      && (before == "" ==> hunks[i].oldStart == 0 == hunks[i].oldLen)
      && (after == "" ==> hunks[i].newStart == 0 == hunks[i].newLen)
  }

  lemma {:induction false} EmptySides(entries: seq<Entry>, ranges: seq<Range>, before: string, after: string)
    requires forall i :: 0 <= i < |ranges| ==> ranges[i].lo < ranges[i].hi <= |entries|
    requires before == "" ==> OldSide(entries) == []
    requires after == "" ==> NewSide(entries) == []
    ensures PlacedForEmpty(HunksOf(entries, ranges), before, after)
  {
    hide OldSide, NewSide;
    if ranges != [] {
      var (r, n) := (ranges[0], |entries|);
      EmptySides(entries, ranges[1..], before, after);
      SidesAtCut(entries, r.lo, r.hi);
      SidesAtCut(entries, r.hi, n);
      assert entries[..n] == entries;
    }
  }

  /**
    The diff of two texts. Its entries read as the lines of `before` and of `after`; a patch applied
    to the former gives exactly the latter; the script behind it is as short as a script can be; its
    hunks hold the changes and their context and nothing else, and at least one kept line lies
    between two hunks. The coarse fallback appears exactly past the search's limits.
   */
  method DiffTexts(before: string, after: string) returns (diff: Diff, ghost entries: seq<Entry>,
    ghost ranges: seq<Range>)
    ensures diff == Same <==> before == after
    ensures diff.Patch? ==>
      && AreLinesOf(OldSide(entries), before) && AreLinesOf(NewSide(entries), after)
      && Apply(diff.hunks, OldSide(entries), 0, 0) == Some(NewSide(entries))
      && Optimal(OpsOf(entries), OldSide(entries), NewSide(entries))
      && Separated(ranges, |entries|) && diff.hunks == HunksOf(entries, ranges)
      && (forall k :: Covered(ranges, k) <==> NearChange(entries, |entries|, k))
      && PlacedForEmpty(diff.hunks, before, after)
    ensures diff.Coarse? ==>
      && AreLinesOf(OldSide(diff.hunk.lines), before) && AreLinesOf(NewSide(diff.hunk.lines), after)
      && diff.hunk == CoarseHunk(OldSide(diff.hunk.lines), NewSide(diff.hunk.lines))
    ensures diff.Coarse? <==> before != after && BeyondLimits(Lines(before), Lines(after))
  {
    entries, ranges := [], [];
    if before == after {
      return Same, entries, ranges;
    }
    var a, b := Lines(before), Lines(after);
    LinesExactly(before, a);
    LinesExactly(after, b);
    var ops := LineDiff.LineOps(a, b);
    if ops == None {
      assert BeyondLimits(a, b);
      CoarseSides(a, b);
      var hunk := BuildCoarse(a, b);
      return Coarse(hunk), entries, ranges;
    }
    var es := BuildEntries(ops.value, a, b);
    var positions := BuildPositions(es);
    var rs := BuildRanges(es);
    var hunks := BuildHunks(es, positions, rs);
    PatchOfAll(es, rs);
    EmptySides(es, rs, before, after);
    entries, ranges := es, rs;
    diff := Patch(hunks);
  }

  lemma PatchOfAll(entries: seq<Entry>, ranges: seq<Range>)
    requires Separated(ranges, |entries|)
    requires forall k :: Covered(ranges, k) <==> NearChange(entries, |entries|, k)
    ensures Apply(HunksOf(entries, ranges), OldSide(entries), 0, 0) == Some(NewSide(entries))
  {
    hide OldSide, NewSide, Apply, HunksOf;
    forall k | 0 <= k && Changed(entries, k)
      ensures Covered(ranges, k)
    {
      assert NearChange(entries, |entries|, k);
    }
    HunksPatch(entries, ranges, 0);
    assert entries[0..] == entries && entries[..0] == [];
    assert OldSide([]) == [] && NewSide([]) == [] by { NoSides(); }
  }

  lemma NoSides()
    ensures OldSide([]) == [] && NewSide([]) == []
  {
  }
}
