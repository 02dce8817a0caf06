/**
  Why the two selections agree. The groups to summarise are chosen before the summary exists,
  against a reserve of tokens; the groups to keep are chosen afterwards, against its real cost.
 */
module SummaryReserve {
  import opened Basics
  import opened Options
  import opened Transcript
  import opened Compaction
  import opened CompactHistory

  /** One byte per character: the text is ASCII. */
  ghost predicate OneByte(text: string) {
    forall i :: 0 <= i < |text| ==> text[i] as int < 0x80
  }

  lemma {:induction false} Utf8Concat(p: string, q: string)
    ensures Utf8Len(p + q) == Utf8Len(p) + Utf8Len(q)
  {
    if p == "" {
      assert p + q == q;
    } else {
      assert (p + q)[1..] == p[1..] + q;
      Utf8Concat(p[1..], q);
    }
  }

  /** Between one and four bytes a character; exactly one for ASCII. */
  lemma {:induction false} Utf8Bounds(text: string)
    ensures |text| <= Utf8Len(text) <= 4 * |text|
    ensures OneByte(text) ==> Utf8Len(text) == |text|
  {
    if text != "" {
      Utf8Bounds(text[1..]);
    }
  }

  lemma PrefixBytes()
    ensures Utf8Len(SUMMARY_PREFIX + "\n") == 26
  {
    hide Utf8Len;
    Utf8Bounds(SUMMARY_PREFIX + "\n");
  }

  /** The injected message costs a quarter of its bytes; the prefix and the newline are 26 of them. */
  lemma SummaryCostFormula(summary: string, available: nat)
    ensures SummaryCost(summary, available) == (26 + Utf8Len(SummaryText(summary, available))) / 4
  {
    hide Utf8Len;
    Utf8Concat(SUMMARY_PREFIX + "\n", SummaryText(summary, available));
    PrefixBytes();
  }

  /** A summary of one byte per character stays inside the reserve from 28 available tokens on. */
  lemma OneByteFitsReserve(summary: string, available: nat)
    requires OneByte(summary) && available >= 28
    ensures SummaryCost(summary, available) <= Reserve(available)
  {
    SummaryCostFormula(summary, available);
    var max := Monus(Reserve(available), 8) * CHARS_PER_TOKEN;
    if |summary| <= max {
      Utf8Bounds(summary);
    } else {
      Utf8Bounds(summary[..max]);
      Utf8Concat(summary[..max], "\U{2026}");
      assert "\U{2026}"[1..] == "";
    }
  }

  /** Below 28 available tokens every non-empty summary costs more than the reserve. */
  lemma SmallReserveOverflows(summary: string, available: nat)
    requires summary != "" && available < 28
    ensures SummaryCost(summary, available) > Reserve(available)
  {
    SummaryCostFormula(summary, available);
    assert SummaryText(summary, available) == "" + "\U{2026}";
    assert "\U{2026}"[1..] == "";
  }

  lemma {:induction false} Utf8Repeat(c: char, n: nat)
    ensures Utf8Len(seq(n, _ => c)) == n * Utf8Width(c)
  {
    if n > 0 {
      assert seq(n, _ => c)[1..] == seq(n - 1, _ => c);
      Utf8Repeat(c, n - 1);
    }
  }

  /**
    Characters and bytes differ: one character more than the truncation keeps, three bytes each,
    costs more than the reserve from 36 available tokens on. On 28..35 every summary is cut to
    nothing but the ellipsis, or is empty, and fits.
   */
  lemma ThreeByteSummary(available: nat)
    requires available >= 28
    ensures var summary := seq(Monus(Reserve(available), 8) * 4 + 1, _ => '\U{20AC}');
      SummaryCost(summary, available) > Reserve(available) <==> available >= 36
  {
    hide Utf8Len;
    var max := Monus(Reserve(available), 8) * CHARS_PER_TOKEN;
    var summary := seq(max + 1, _ => '\U{20AC}');
    SummaryCostFormula(summary, available);
    assert summary[..max] == seq(max, _ => '\U{20AC}');
    Utf8Repeat('\U{20AC}', max);
    Utf8Concat(summary[..max], "\U{2026}");
    EllipsisBytes();
  }

  lemma EllipsisBytes()
    ensures Utf8Len("\U{2026}") == 3 && Utf8Len("") == 0
  {
    assert "\U{2026}"[1..] == "";
  }

  /** From 28 tokens on every summary fits exactly when the budget leaves no room for its text. */
  lemma MultiByteOverflows(available: nat)
    requires available >= 28
    ensures (exists summary :: SummaryCost(summary, available) > Reserve(available)) <==> available >= 36
  {
    ThreeByteSummary(available);
    if available < 36 {
      forall summary
        ensures SummaryCost(summary, available) <= Reserve(available)
      {
        EmptyTextFits(summary, available);
      }
    }
  }

  lemma EmptyTextFits(summary: string, available: nat)
    requires 28 <= available < 36
    ensures SummaryCost(summary, available) <= Reserve(available)
  {
    hide Utf8Len;
    SummaryCostFormula(summary, available);
    assert summary != "" ==> SummaryText(summary, available) == "" + "\U{2026}" == "\U{2026}";
    EllipsisBytes();
  }

  // ----- nothing is dropped unsummarised

  /** Every non-system message that compaction drops is among the candidates of the same history. */
  ghost predicate NothingLost(history: seq<Message>, maxTokens: nat, summary: string) {
    exists dropped ::
      && NonSystem(history) == dropped + NonSystem(Compact(history, maxTokens, Some(summary)).messages)
      && dropped <= NonSystem(DropCandidates(history, maxTokens))
  }

  function CandidateBudget(available: nat): nat {
    Monus(available, Reserve(available))
  }

  function ActualBudget(summary: string, available: nat): nat {
    Monus(available, SummaryCost(summary, available))
  }

  /** The non-system messages that a compaction with a summary keeps. */
  lemma KeptWithSummary(history: seq<Message>, maxTokens: nat, summary: string)
    requires |Groups(NonSystem(history))| > 1
    ensures var groups := Groups(NonSystem(history));
      var keep := KeepCount(groups, ActualBudget(summary, Available(history, maxTokens)));
      && NonSystem(Compact(history, maxTokens, Some(summary)).messages) == Flatten(groups[|groups| - keep..])
      && NonSystem(history) == Flatten(groups[..|groups| - keep]) + Flatten(groups[|groups| - keep..])
  {
    hide Estimate, SummaryText, KeepCount;
    var groups := Groups(NonSystem(history));
    var available := Available(history, maxTokens);
    var keep := KeepCount(groups, ActualBudget(summary, available));
    var system := AsSeq(FirstSystem(history));
    var injected := [SummaryMessage(SummaryText(summary, available))];
    SuffixNonSystem(history, |groups| - keep);
    HeadIsPlain(history);
    NonSystemConcat(system, injected);
    assert injected[1..] == [];
    NonSystemConcat(system + injected, Flatten(groups[|groups| - keep..]));
  }

  lemma FlattenNothing()
    ensures Flatten([]) == []
  {
  }

  lemma CandidatesNonSystem(history: seq<Message>, maxTokens: nat)
    ensures var groups := Groups(NonSystem(history));
      var keep := KeepCount(groups, CandidateBudget(Available(history, maxTokens)));
      NonSystem(DropCandidates(history, maxTokens)) == Flatten(groups[..|groups| - keep])
  {
    hide Estimate, KeepCount, Groups, Flatten, Summaries;
    var groups := Groups(NonSystem(history));
    var keep := KeepCount(groups, CandidateBudget(Available(history, maxTokens)));
    if |groups| <= keep {
      assert groups[..|groups| - keep] == [];
      FlattenNothing();
    } else {
      SystemMessagesOnly(history);
      var older := Flatten(groups[..|groups| - keep]);
      SuffixNonSystem(history, |groups| - keep);
      NonSystemRoles(history);
      assert forall i :: 0 <= i < |older| ==> older[i] == NonSystem(history)[i];
      NonSystemIdentity(older);
      NonSystemConcat(Summaries(history), older);
    }
  }

  /** A summary no dearer than the reserve leaves nothing behind that it was not asked to cover. */
  lemma NothingDroppedUnsummarised(history: seq<Message>, maxTokens: nat, summary: string)
    requires CandidateBudget(Available(history, maxTokens)) <= ActualBudget(summary, Available(history, maxTokens))
    ensures NothingLost(history, maxTokens, summary)
  {
    hide Estimate, Flatten, Groups, SummaryCost, Reserve, Compact, DropCandidates, KeepFrom, NonSystem;
    var groups := Groups(NonSystem(history));
    var available := Available(history, maxTokens);
    CandidatesNonSystem(history, maxTokens);
    if |groups| > 1 {
      KeptWithSummary(history, maxTokens, summary);
      KeepMonotone(groups, CandidateBudget(available), ActualBudget(summary, available), 1);
      var keep1 := KeepCount(groups, CandidateBudget(available));
      var keep2 := KeepCount(groups, ActualBudget(summary, available));
      FlattenPrefix(groups, |groups| - keep2, |groups| - keep1);
    } else {
      OneGroupStays(history, maxTokens, summary);
      assert NonSystem(history) == [] + NonSystem(history);
    }
  }

  lemma FlattenPrefix(groups: seq<seq<Message>>, i: nat, j: nat)
    requires i <= j <= |groups|
    ensures Flatten(groups[..i]) <= Flatten(groups[..j])
  {
    assert groups[..j] == groups[..i] + groups[i..j];
    FlattenConcat(groups[..i], groups[i..j]);
  }

  lemma OneGroupStays(history: seq<Message>, maxTokens: nat, summary: string)
    requires |Groups(NonSystem(history))| <= 1
    ensures NonSystem(Compact(history, maxTokens, Some(summary)).messages) == NonSystem(history)
  {
    hide Estimate;
    var groups := Groups(NonSystem(history));
    assert FirstFit(groups, Available(history, maxTokens), 0) == 0;
    SuffixNonSystem(history, 0);
    FlattenGroups(NonSystem(history));
    assert groups[0..] == groups;
    HeadIsPlain(history);
    NonSystemConcat(AsSeq(FirstSystem(history)), PriorSummaries(history));
    NonSystemConcat(AsSeq(FirstSystem(history)) + PriorSummaries(history), Flatten(groups));
  }

  /** Messages of any cost exist. */
  lemma MessageOfCost(cost: nat) returns (m: Message)
    ensures m.role == User && EstimateMessage(m) == cost
  {
    if cost == 0 {
      m := Message(User, None, [], [], None, None);
    } else {
      var text := seq(4 * cost, _ => 'x');
      Utf8Repeat('x', 4 * cost);
      m := TextMessage(User, text);
    }
  }

  /** A history of two one-message groups, the newer one costing a token. */
  lemma TwoGroups(older: Message, newest: Message)
    requires older.role == User == newest.role
    ensures NonSystem([older, newest]) == [older, newest] && FirstSystem([older, newest]) == None
    ensures Groups([older, newest]) == [[older], [newest]]
    ensures Flatten([[older], [newest]]) == [older, newest]
    ensures Flatten([[newest]]) == [newest] && Flatten([[older]]) == [older]
    ensures Estimate([older, newest]) == EstimateMessage(older) + EstimateMessage(newest)
  {
    var h := [older, newest];
    assert h[1..] == [newest] && [newest][1..] == [];
    assert h[..1] == [older] && [newest][..1] == [newest];
    assert Groups([newest]) == [[newest]];
    assert [[older], [newest]][1..] == [[newest]] && [[newest]][1..] == [] && [[older]][1..] == [];
    assert [older] + [newest] == h;
    assert Flatten([[newest]]) == [newest] + Flatten([]);
    assert Flatten([[older], [newest]]) == [older] + Flatten([[newest]]);
    assert Estimate([newest]) == EstimateMessage(newest) + Estimate([]);
    assert Estimate(h) == EstimateMessage(older) + Estimate([newest]);
    assert NonSystem([newest]) == [newest] + NonSystem([]);
    assert FirstSystem(h) == FirstSystem([newest]) == FirstSystem([]);
  }

  lemma KeepOfTwo(older: Message, newest: Message, budget: nat)
    requires older.role == User == newest.role
    ensures KeepCount([[older], [newest]], budget)
         == if EstimateMessage(older) + EstimateMessage(newest) <= budget then 2 else 1
  {
    hide EstimateMessage, Estimate, Flatten;
    TwoGroups(older, newest);
    var groups := [[older], [newest]];
    assert groups[0..] == groups && groups[1..] == [[newest]];
    assert KeepFrom(groups, budget, 2) == 2;
  }

  /** A summary dearer than the reserve loses a message of some history with this system message. */
  lemma DearSummaryLosesSomething(system: Option<Message>, maxTokens: nat,
    summary: string) returns (history: seq<Message>)
    requires system.Some? ==> system.value.role == System
    requires var available := Monus(maxTokens, Estimate(AsSeq(system)));
      CandidateBudget(available) > ActualBudget(summary, available)
    ensures FirstSystem(history) == system && !NothingLost(history, maxTokens, summary)
  {
    hide EstimateMessage, Estimate, KeepCount, Groups, Flatten, NonSystem, Compact, DropCandidates, CandidateBudget,
      ActualBudget, FirstSystem;
    var available := Monus(maxTokens, Estimate(AsSeq(system)));
    var budget := CandidateBudget(available);
    var newest := MessageOfCost(1);
    var older := MessageOfCost(budget - 1);
    history := AsSeq(system) + [older, newest];
    TwoGroups(older, newest);
    LedBy(system, older, newest);
    KeepOfTwo(older, newest, budget);
    KeepOfTwo(older, newest, ActualBudget(summary, available));
    assert Available(history, maxTokens) == available;
    var groups := [[older], [newest]];
    KeptWithSummary(history, maxTokens, summary);
    CandidatesNonSystem(history, maxTokens);
    FlattenNothing();
    assert groups[1..] == [[newest]] && groups[..0] == [];
  }

  /** A system message in front of two others. */
  lemma LedBy(system: Option<Message>, older: Message, newest: Message)
    requires system.Some? ==> system.value.role == System
    requires older.role == User == newest.role
    ensures FirstSystem(AsSeq(system) + [older, newest]) == system
    ensures NonSystem(AsSeq(system) + [older, newest]) == [older, newest]
  {
    TwoGroups(older, newest);
    if system.Some? {
      SystemInFront(system.value, [older, newest]);
    } else {
      assert AsSeq(system) + [older, newest] == [older, newest];
    }
  }

  /**
    For a given leading system message, budget and summary, nothing is ever lost exactly when the
    injected message fits the reserve. (With no tokens left both selections keep the newest groups
    that cost nothing.)
   */
  lemma NothingLostExactly(system: Option<Message>, maxTokens: nat, summary: string)
    requires system.Some? ==> system.value.role == System
    ensures var available := Monus(maxTokens, Estimate(AsSeq(system)));
      (forall history :: FirstSystem(history) == system ==> NothingLost(history, maxTokens, summary))
      <==> available == 0 || SummaryCost(summary, available) <= Reserve(available)
  {
    hide NothingLost, SummaryCost, Estimate;
    var available := Monus(maxTokens, Estimate(AsSeq(system)));
    if CandidateBudget(available) > ActualBudget(summary, available) {
      var history := DearSummaryLosesSomething(system, maxTokens, summary);
    } else {
      forall history | FirstSystem(history) == system
        ensures NothingLost(history, maxTokens, summary)
      {
        assert Available(history, maxTokens) == available;
        NothingDroppedUnsummarised(history, maxTokens, summary);
      }
    }
  }

  /** The case the source relies on: an ASCII summary and a budget of at least 28 tokens. */
  lemma AsciiSummaryLosesNothing(history: seq<Message>, maxTokens: nat, summary: string)
    requires OneByte(summary) && Available(history, maxTokens) >= 28
    ensures NothingLost(history, maxTokens, summary)
  {
    OneByteFitsReserve(summary, Available(history, maxTokens));
    NothingDroppedUnsummarised(history, maxTokens, summary);
  }

  /** With a summary that fits, the result fits too, unless only the newest group is left. */
  lemma SummarisedFits(history: seq<Message>, maxTokens: nat, summary: string)
    requires |Groups(NonSystem(history))| > 1
    requires Estimate(AsSeq(FirstSystem(history))) <= maxTokens
    requires SummaryCost(summary, Available(history, maxTokens)) <= Available(history, maxTokens)
    ensures var r := Compact(history, maxTokens, Some(summary));
      var groups := Groups(NonSystem(history));
      || Estimate(r.messages) <= maxTokens
      || NonSystem(r.messages) == groups[|groups| - 1]
  {
    hide KeepCount, SummaryText, Groups, NonSystem, Estimate, Flatten, EstimateMessage, SummaryCost, FirstSystem;
    var groups := Groups(NonSystem(history));
    var available := Available(history, maxTokens);
    var keep := KeepCount(groups, ActualBudget(summary, available));
    SummaryEstimate(summary, available);
    var system := AsSeq(FirstSystem(history));
    var injected := [SummaryMessage(SummaryText(summary, available))];
    KeptWithSummary(history, maxTokens, summary);
    KeptNewestOrFits(groups, ActualBudget(summary, available));
    EstimateConcat(system, injected);
    EstimateConcat(system + injected, Flatten(groups[|groups| - keep..]));
    if keep == 1 {
      OneLeft(groups);
    }
  }

  lemma SummaryEstimate(summary: string, available: nat)
    ensures Estimate([SummaryMessage(SummaryText(summary, available))]) == SummaryCost(summary, available)
  {
    hide SummaryText, EstimateMessage;
    var injected := [SummaryMessage(SummaryText(summary, available))];
    assert injected[1..] == [];
  }

  lemma OneLeft(groups: seq<seq<Message>>)
    requires groups != []
    ensures Flatten(groups[|groups| - 1..]) == groups[|groups| - 1]
  {
    assert groups[|groups| - 1..] == [groups[|groups| - 1]];
  }

  lemma KeptNewestOrFits(groups: seq<seq<Message>>, budget: nat)
    requires groups != []
    ensures var keep := KeepCount(groups, budget);
      keep == 1 || Estimate(Flatten(groups[|groups| - keep..])) <= budget
  {
    KeptFits(groups, budget, 1);
  }

  // ----- without a summary

  /** Without a summary and without earlier ones to keep, the result fits unless only the newest
      group is left. */
  lemma FallbackFits(history: seq<Message>, maxTokens: nat)
    requires NonSystem(history) != [] && PriorSummaries(history) == []
    requires Estimate(AsSeq(FirstSystem(history))) <= maxTokens
    ensures var r := Compact(history, maxTokens, None);
      var groups := Groups(NonSystem(history));
      Estimate(r.messages) <= maxTokens || NonSystem(r.messages) == groups[|groups| - 1]
  {
    if Estimate(history) > maxTokens {
      var first := DropKeepsLongestSuffix(history, maxTokens);
      FallbackKeeps(history, maxTokens, first);
    }
  }

  lemma FallbackKeeps(history: seq<Message>, maxTokens: nat, first: nat)
    requires Estimate(history) > maxTokens && first < |Groups(NonSystem(history))|
    requires Compact(history, maxTokens, None).messages
      == AsSeq(FirstSystem(history)) + PriorSummaries(history) + Flatten(Groups(NonSystem(history))[first..])
    ensures var groups := Groups(NonSystem(history));
      && NonSystem(Compact(history, maxTokens, None).messages) == Flatten(groups[first..])
      && (first + 1 == |groups| ==> Flatten(groups[first..]) == groups[first])
  {
    hide Compact, Groups, NonSystem, PriorSummaries, Estimate;
    var groups := Groups(NonSystem(history));
    var system, prior := AsSeq(FirstSystem(history)), PriorSummaries(history);
    SuffixNonSystem(history, first);
    HeadIsPlain(history);
    NonSystemConcat(system, prior);
    NonSystemConcat(system + prior, Flatten(groups[first..]));
    if first + 1 == |groups| {
      assert groups[first..] == [groups[first]];
    }
  }

  /** The result fits the limit, or only the newest group is left. */
  ghost predicate FallbackHolds(history: seq<Message>, maxTokens: nat) {
    var r := Compact(history, maxTokens, None);
    var groups := Groups(NonSystem(history));
    groups != [] && (Estimate(r.messages) <= maxTokens || NonSystem(r.messages) == groups[|groups| - 1])
  }

  /** The same system message and earlier summaries, and something to compact. */
  ghost predicate SameHead(history: seq<Message>, head: seq<Message>) {
    && FirstSystem(history) == FirstSystem(head) && PriorSummaries(history) == PriorSummaries(head)
    && NonSystem(history) != []
  }

  /**
    The fallback keeps its promise for every history with a given system message and given earlier
    summaries exactly when the system message fits the limit and there are no earlier summaries:
    those are kept and not counted against the groups.
   */
  lemma FallbackFitsExactly(head: seq<Message>, maxTokens: nat)
    ensures (forall history :: SameHead(history, head) ==> FallbackHolds(history, maxTokens))
       <==> Estimate(AsSeq(FirstSystem(head))) <= maxTokens && PriorSummaries(head) == []
  {
    hide Compact, Groups, NonSystem, PriorSummaries, Estimate;
    if Estimate(AsSeq(FirstSystem(head))) <= maxTokens && PriorSummaries(head) == [] {
      forall history | SameHead(history, head)
        ensures FallbackHolds(history, maxTokens)
      {
        SomeGroups(NonSystem(history));
        FallbackFits(history, maxTokens);
      }
    } else {
      var history := FallbackOverflows(head, maxTokens);
    }
  }

  lemma SomeGroups(messages: seq<Message>)
    ensures messages != [] ==> Groups(messages) != []
  {
  }

  /** Otherwise some history is left over the limit although there was a group to drop. */
  lemma FallbackOverflows(head: seq<Message>, maxTokens: nat) returns (history: seq<Message>)
    requires !(Estimate(AsSeq(FirstSystem(head))) <= maxTokens && PriorSummaries(head) == [])
    ensures SameHead(history, head) && !FallbackHolds(history, maxTokens)
    ensures Compact(history, maxTokens, None).messages == history && Estimate(history) > maxTokens
  {
    hide EstimateMessage, Estimate, Groups, NonSystem, Flatten, PriorSummaries, FirstSystem, FirstFit;
    var system, prior := AsSeq(FirstSystem(head)), PriorSummaries(head);
    var available := Available(head, maxTokens);
    var older := MessageOfCost(available);
    var newest := MessageOfCost(0);
    history := system + prior + [older, newest];
    HeadIsStable(head, [older, newest]);
    TwoGroups(older, newest);
    EstimateConcat(system, prior);
    EstimateConcat(system + prior, [older, newest]);
    PriorCost(head);
    FittingGroupsStay([[older], [newest]], available);
  }

  lemma PriorCost(head: seq<Message>)
    ensures PriorSummaries(head) != [] ==> Estimate(PriorSummaries(head)) >= 1
    ensures PriorSummaries(head) == [] ==> Estimate(PriorSummaries(head)) == 0
  {
    hide PriorSummaries;
    var prior := PriorSummaries(head);
    PriorIsSummaries(head);
    SystemMessagesOnly(prior);
    if prior != [] {
      assert IsSummary(Summaries(prior)[0]);
      assert EstimateMessage(prior[0]) >= 1;
    }
  }

  lemma FittingGroupsStay(groups: seq<seq<Message>>, available: nat)
    requires Estimate(Flatten(groups)) <= available
    ensures Flatten(groups[FirstFit(groups, available, 0)..]) == Flatten(groups)
  {
    assert groups[0..] == groups;
  }

  /** A system message in front. */
  lemma SystemInFront(m: Message, rest: seq<Message>)
    requires m.role == System
    ensures FirstSystem([m] + rest) == Some(m) && NonSystem([m] + rest) == NonSystem(rest)
    ensures Summaries([m] + rest) == (if IsSummary(m) then [m] else []) + Summaries(rest)
    ensures Estimate([m] + rest) == EstimateMessage(m) + Estimate(rest)
  {
    assert ([m] + rest)[1..] == rest;
  }

  // ----- every result

  /** From seven tokens on no summary costs more than the system message leaves. */
  lemma SummaryCostsNoMore(summary: string, available: nat)
    requires available >= 7
    ensures SummaryCost(summary, available) <= available
  {
    hide Utf8Len;
    SummaryCostFormula(summary, available);
    var max := Monus(Reserve(available), 8) * CHARS_PER_TOKEN;
    if |summary| <= max {
      Utf8Bounds(summary);
    } else {
      Utf8Concat(summary[..max], "\U{2026}");
      Utf8Bounds(summary[..max]);
      EllipsisBytes();
    }
  }

  /** Every summary costs at most what the system message leaves exactly when that is seven tokens. */
  lemma SummaryCostsNoMoreExactly(available: nat)
    ensures (forall summary :: SummaryCost(summary, available) <= available) <==> available >= 7
  {
    hide SummaryCost, Utf8Len;
    if available >= 7 {
      forall summary
        ensures SummaryCost(summary, available) <= available
      {
        SummaryCostsNoMore(summary, available);
      }
    } else {
      SummaryCostFormula("x", available);
      EllipsisBytes();
      assert SummaryText("x", available) == "\U{2026}";
      assert SummaryCost("x", available) > available;
    }
  }

  /** With seven tokens left the summarised result fits the limit, or one group is left. */
  lemma SummarisedAlwaysFits(history: seq<Message>, maxTokens: nat, summary: string)
    requires |Groups(NonSystem(history))| > 1 && Estimate(AsSeq(FirstSystem(history))) + 7 <= maxTokens
    ensures var r := Compact(history, maxTokens, Some(summary));
      var groups := Groups(NonSystem(history));
      Estimate(r.messages) <= maxTokens || NonSystem(r.messages) == groups[|groups| - 1]
  {
    hide Groups, NonSystem, Estimate, Compact, SummaryCost, FirstSystem;
    SummaryCostsNoMore(summary, Available(history, maxTokens));
    SummarisedFits(history, maxTokens, summary);
  }

  /**
    What a transcript exceeds the limit by is at most its summaries beyond the first system message,
    unless one group is left or that system message alone exceeds the limit.
   */
  ghost predicate WithinWindow(messages: seq<Message>, maxTokens: nat) {
    || Estimate(messages) <= maxTokens + Estimate(PriorSummaries(messages))
    || |Groups(NonSystem(messages))| <= 1
    || Estimate(AsSeq(FirstSystem(messages))) > maxTokens
  }

  lemma FitsAlready(history: seq<Message>, maxTokens: nat)
    requires Estimate(history) <= maxTokens
    ensures WithinWindow(history, maxTokens)
  {
  }

  lemma TailRoles(history: seq<Message>, k: nat)
    requires k <= |Groups(NonSystem(history))|
    ensures var tail := Flatten(Groups(NonSystem(history))[k..]);
      (forall i :: 0 <= i < |tail| ==> tail[i].role != System) && Groups(tail) == Groups(NonSystem(history))[k..]
  {
    hide Groups, NonSystem, Flatten;
    SuffixNonSystem(history, k);
    NonSystemRoles(history);
    RegroupSuffix(NonSystem(history), k);
    var (older, tail) := (Flatten(Groups(NonSystem(history))[..k]), Flatten(Groups(NonSystem(history))[k..]));
    assert forall i :: 0 <= i < |tail| ==> tail[i] == NonSystem(history)[|older| + i];
  }

  /** A summary in front of a tail without system messages. */
  lemma SummaryAlone(injected: Message, tail: seq<Message>)
    requires injected.role == System && IsSummary(injected)
    requires forall i :: 0 <= i < |tail| ==> tail[i].role != System
    ensures var all := [injected] + tail;
      && NonSystem(all) == tail && Estimate(all) == Estimate([injected]) + Estimate(tail)
      && FirstSystem(all) == Some(injected) && Summaries(all) == [injected] && PriorSummaries(all) == []
  {
    hide IsSummary, NonSystem, Summaries, FirstSystem, Estimate;
    NonSystemIdentity(tail);
    NoSummariesInNonSystem(tail);
    EstimateConcat([injected], tail);
    SystemInFront(injected, tail);
  }

  /** The same with a system message in front. */
  lemma SummarySecond(system: Message, injected: Message, tail: seq<Message>)
    requires system.role == System && injected.role == System && IsSummary(injected)
    requires forall i :: 0 <= i < |tail| ==> tail[i].role != System
    ensures var all := [system] + ([injected] + tail);
      && NonSystem(all) == tail && Estimate(all) == Estimate([system]) + Estimate([injected]) + Estimate(tail)
      && FirstSystem(all) == Some(system) && PriorSummaries(all) == [injected]
  {
    hide IsSummary, NonSystem, Summaries, FirstSystem, Estimate;
    SummaryAlone(injected, tail);
    EstimateConcat([system], [injected] + tail);
    SystemInFront(system, [injected] + tail);
  }

  lemma AloneWithinWindow(injected: Message, tail: seq<Message>, maxTokens: nat)
    requires injected.role == System && IsSummary(injected)
    requires forall i :: 0 <= i < |tail| ==> tail[i].role != System
    requires |Groups(tail)| <= 1 || Estimate(tail) <= Monus(maxTokens, Estimate([injected]))
    ensures WithinWindow([injected] + tail, maxTokens)
  {
    hide Estimate, IsSummary, Groups, NonSystem, FirstSystem, PriorSummaries, Summaries;
    EstimateNothing();
    SummaryAlone(injected, tail);
  }

  lemma SecondWithinWindow(system: Message, injected: Message, tail: seq<Message>, maxTokens: nat)
    requires system.role == System && injected.role == System && IsSummary(injected)
    requires forall i :: 0 <= i < |tail| ==> tail[i].role != System
    requires |Groups(tail)| <= 1
      || Estimate(tail) <= Monus(Monus(maxTokens, Estimate([system])), Estimate([injected]))
    ensures WithinWindow([system] + ([injected] + tail), maxTokens)
  {
    hide Estimate, IsSummary, Groups, NonSystem, FirstSystem, PriorSummaries, Summaries;
    EstimateNothing();
    SummarySecond(system, injected, tail);
  }

  lemma InjectedWithinWindow(system: seq<Message>, injected: Message, tail: seq<Message>, maxTokens: nat)
    requires |system| <= 1 && (system != [] ==> system[0].role == System)
    requires injected.role == System && IsSummary(injected)
    requires forall i :: 0 <= i < |tail| ==> tail[i].role != System
    requires |Groups(tail)| <= 1
      || Estimate(tail) <= Monus(Monus(maxTokens, Estimate(system)), Estimate([injected]))
    ensures WithinWindow(system + [injected] + tail, maxTokens)
  {
    hide Estimate, IsSummary, Groups, WithinWindow;
    EstimateNothing();
    if system == [] {
      AloneWithinWindow(injected, tail, maxTokens);
      assert system + [injected] + tail == [injected] + tail;
    } else {
      assert system == [system[0]] && system + [injected] + tail == [system[0]] + ([injected] + tail);
      SecondWithinWindow(system[0], injected, tail, maxTokens);
    }
  }

  lemma DroppedWithinWindow(history: seq<Message>, tail: seq<Message>, maxTokens: nat)
    requires forall i :: 0 <= i < |tail| ==> tail[i].role != System
    requires |Groups(tail)| <= 1 || Estimate(tail) <= Available(history, maxTokens)
    ensures WithinWindow(AsSeq(FirstSystem(history)) + PriorSummaries(history) + tail, maxTokens)
  {
    hide Estimate, Groups, NonSystem, FirstSystem, PriorSummaries;
    HeadIsStable(history, tail);
    EstimateConcat(AsSeq(FirstSystem(history)), PriorSummaries(history));
    EstimateConcat(AsSeq(FirstSystem(history)) + PriorSummaries(history), tail);
  }

  lemma InjectedIsSummary(text: string)
    ensures IsSummary(SummaryMessage(text)) && SummaryMessage(text).role == System
  {
  }

  lemma SystemAlone(history: seq<Message>)
    ensures var system := AsSeq(FirstSystem(history));
      |system| <= 1 && (system != [] ==> system[0].role == System)
  {
    FirstSystemRole(history);
  }

  /** Whatever is compacted, and with whatever summary. */
  lemma CompactedWithinWindow(history: seq<Message>, maxTokens: nat, summary: Option<string>)
    ensures WithinWindow(Compact(history, maxTokens, summary).messages, maxTokens)
  {
    hide KeepCount, SummaryText, Groups, NonSystem, Estimate, Flatten, SummaryMessage, FirstSystem, WithinWindow,
      FirstFit, PriorSummaries, IsSummary;
    var groups := Groups(NonSystem(history));
    var available := Available(history, maxTokens);
    if summary == None && Estimate(history) <= maxTokens {
      FitsAlready(history, maxTokens);
    } else if summary.Some? && |groups| > 1 {
      var keep := KeepCount(groups, ActualBudget(summary.value, available));
      SystemAlone(history);
      InjectedIsSummary(SummaryText(summary.value, available));
      SummaryEstimate(summary.value, available);
      KeptNewestOrFits(groups, ActualBudget(summary.value, available));
      TailRoles(history, |groups| - keep);
      InjectedWithinWindow(AsSeq(FirstSystem(history)), SummaryMessage(SummaryText(summary.value, available)),
        Flatten(groups[|groups| - keep..]), maxTokens);
    } else {
      var first := FirstFit(groups, available, 0);
      if groups != [] {
        FirstFitIsLongest(groups, available, 0);
      }
      TailRoles(history, first);
      DroppedWithinWindow(history, Flatten(groups[first..]), maxTokens);
    }
  }
}
