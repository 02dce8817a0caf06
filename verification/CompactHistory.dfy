/**
  The loops of the compaction, and what the compaction promises: whole exchanges stay or go,
  the newest ones stay, and nothing a summary was asked to replace goes missing.
 */
module CompactHistory {
  import opened Basics
  import opened Options
  import opened Transcript
  import opened Compaction

  // ----- the loops

  /** The end of the group that starts at `start`. */
  method GroupEnd(messages: seq<Message>, start: nat) returns (index: nat)
    requires start < |messages|
    ensures index == start + GroupLength(messages[start..])
  {
    index := start + 1;
    assert messages[start..][1..] == messages[index..];
    if HasCalls(messages[start]) {
      while index < |messages| && messages[index].role == Tool
        invariant start < index <= |messages|
        invariant index + LeadingTools(messages[index..]) == start + 1 + LeadingTools(messages[start + 1..])
      {
        assert messages[index..][1..] == messages[index + 1..];
        index := index + 1;
      }
    }
  }

  method HistoryGroups(history: seq<Message>) returns (system: Option<Message>, groups: seq<seq<Message>>)
    ensures system == FirstSystem(history) && groups == Groups(NonSystem(history))
  {
    hide GroupLength;
    system := FirstSystem(history);
    var nonSystem := NonSystem(history);
    groups := [];
    var index := 0;
    assert nonSystem[0..] == nonSystem;
    while index < |nonSystem|
      invariant 0 <= index <= |nonSystem|
      invariant groups + Groups(nonSystem[index..]) == Groups(nonSystem)
    {
      var end := GroupEnd(nonSystem, index);
      var rest := nonSystem[index..];
      assert rest[..end - index] == nonSystem[index..end] && rest[end - index..] == nonSystem[end..];
      assert groups + ([nonSystem[index..end]] + Groups(nonSystem[end..]))
        == groups + [nonSystem[index..end]] + Groups(nonSystem[end..]);
      groups := groups + [nonSystem[index..end]];
      index := end;
    }
  }

  method RetainedGroupCount(groups: seq<seq<Message>>, budget: nat) returns (keep: nat)
    ensures keep == KeepCount(groups, budget)
  {
    hide Estimate;
    var tokens, count := 0, 0;
    while count < Min(KEEP_LAST_GROUPS, |groups|)
      invariant 0 <= count <= Min(KEEP_LAST_GROUPS, |groups|)
      invariant count == 0 ==> tokens == 0
      invariant count > 0 ==> tokens == Estimate(Flatten(groups[|groups| - count..]))
      invariant count > 0 ==> KeepCount(groups, budget) == KeepFrom(groups, budget, count)
    {
      var group := groups[|groups| - count - 1];
      var cost := Estimate(group);
      LastGroups(groups, count);
      if count > 0 && tokens + cost > budget {
        break;
      }
      tokens := tokens + cost;
      count := count + 1;
    }
    keep := Min(Max(count, 1), |groups|);
  }

  /** One more group costs its own tokens. */
  lemma LastGroups(groups: seq<seq<Message>>, count: nat)
    requires count < |groups|
    ensures Estimate(Flatten(groups[|groups| - count - 1..]))
         == Estimate(groups[|groups| - count - 1]) + Estimate(Flatten(groups[|groups| - count..]))
    ensures count == 0 ==> Estimate(Flatten(groups[|groups| - count..])) == 0
  {
    var rest := groups[|groups| - count - 1..];
    assert rest[1..] == groups[|groups| - count..];
    EstimateConcat(rest[0], Flatten(rest[1..]));
  }

  method SummaryDropCandidates(history: seq<Message>, maxTokens: nat) returns (dropped: seq<Message>)
    ensures dropped == DropCandidates(history, maxTokens)
  {
    hide Groups, NonSystem, Estimate, KeepCount, Flatten, Summaries, FirstSystem;
    var system, groups := HistoryGroups(history);
    var available := Monus(maxTokens, Estimate(AsSeq(system)));
    var keep := RetainedGroupCount(groups, Monus(available, Reserve(available)));
    if |groups| <= keep {
      return [];
    }
    dropped := Summaries(history) + Flatten(groups[..|groups| - keep]);
  }

  /** The running total of the drop loop. */
  method DropOldest(groups: seq<seq<Message>>, available: nat) returns (first: nat)
    ensures first == FirstFit(groups, available, 0)
  {
    hide Estimate;
    var retained := 0;
    EstimateNothing();
    for i := 0 to |groups|
      invariant retained == Estimate(Flatten(groups[..i]))
    {
      assert groups[..i + 1] == groups[..i] + [groups[i]];
      FlattenConcat(groups[..i], [groups[i]]);
      assert Flatten([groups[i]]) == groups[i];
      EstimateConcat(Flatten(groups[..i]), groups[i]);
      retained := retained + Estimate(groups[i]);
    }
    assert groups[..|groups|] == groups == groups[0..];
    first := 0;
    while retained > available && first + 1 < |groups|
      invariant 0 <= first <= |groups| && (groups != [] ==> first < |groups|)
      invariant retained == Estimate(Flatten(groups[first..]))
      invariant FirstFit(groups, available, 0) == FirstFit(groups, available, first)
    {
      LastGroups(groups, |groups| - first - 1);
      retained := retained - Estimate(groups[first]);
      first := first + 1;
    }
  }

  method CompactMessages(history: seq<Message>, maxTokens: nat, summary: Option<string>) returns (r: Compacted)
    ensures r == Compact(history, maxTokens, summary)
  {
    if summary == None && Estimate(history) <= maxTokens {
      return Compacted(history, 0, Estimate(history), None);
    }
    var system, groups := HistoryGroups(history);
    var available := Monus(maxTokens, Estimate(AsSeq(system)));
    if summary.Some? && |groups| > 1 {
      var text := SummaryText(summary.value, available);
      var injected := SummaryMessage(text);
      var keep := RetainedGroupCount(groups, Monus(available, EstimateMessage(injected)));
      var retained := Flatten(groups[|groups| - keep..]);
      var messages := AsSeq(system) + [injected] + retained;
      return Compacted(messages, Monus(|history|, |retained| + |AsSeq(system)|), Estimate(messages), Some(text));
    }
    var first := DropOldest(groups, available);
    var messages := AsSeq(system) + PriorSummaries(history) + Flatten(groups[first..]);
    r := Compacted(messages, Monus(|history|, |messages|), Estimate(messages), None);
  }

  // ----- the shape of the result

  lemma {:induction false} SystemMessagesOnly(history: seq<Message>)
    ensures NonSystem(Summaries(history)) == []
    ensures forall i :: 0 <= i < |Summaries(history)| ==> IsSummary(Summaries(history)[i])
    ensures Summaries(Summaries(history)) == Summaries(history)
  {
    if history != [] {
      SystemMessagesOnly(history[1..]);
      if IsSummary(history[0]) {
        assert Summaries(history)[1..] == Summaries(history[1..]);
      } else {
        assert Summaries(history) == Summaries(history[1..]);
      }
    }
  }

  lemma {:induction false} FirstSystemRole(history: seq<Message>)
    ensures FirstSystem(history).Some? ==> FirstSystem(history).value.role == System
    ensures FirstSystem(history) == None ==> Summaries(history) == []
    ensures FirstSystem(history) == None ==> NonSystem(history) == history
  {
    if history != [] {
      FirstSystemRole(history[1..]);
      assert history == [history[0]] + history[1..];
    }
  }

  /** The head of a compacted history: the first system message and summaries, all plain. */
  lemma HeadIsPlain(history: seq<Message>)
    ensures Plain(AsSeq(FirstSystem(history)) + PriorSummaries(history))
    ensures NonSystem(AsSeq(FirstSystem(history))) == [] == NonSystem(PriorSummaries(history))
  {
    FirstSystemRole(history);
    SystemMessagesOnly(history);
    if Summaries(history) != [] {
      assert NonSystem(Summaries(history)) == NonSystem(Summaries(history)[1..]);
    }
  }

  /** Plain messages before a suffix of whole groups keep it well-formed. */
  lemma HeadAndSuffix(history: seq<Message>, head: seq<Message>, k: nat)
    requires WellFormed(history) && Plain(head) && k <= |Groups(NonSystem(history))|
    ensures WellFormed(head + Flatten(Groups(NonSystem(history))[k..]))
  {
    NonSystemWellFormed(history);
    SuffixWellFormed(NonSystem(history), k);
    PlainIsWellFormed(head);
    WellFormedConcat(head, Flatten(Groups(NonSystem(history))[k..]));
  }

  /** Compaction never orphans a call or a result. */
  lemma CompactWellFormed(history: seq<Message>, maxTokens: nat, summary: Option<string>)
    requires WellFormed(history)
    ensures WellFormed(Compact(history, maxTokens, summary).messages)
  {
    hide Estimate, KeepCount, FirstFit, WellFormed, SummaryText, Flatten, Groups, NonSystem, Plain, PriorSummaries;
    var groups := Groups(NonSystem(history));
    var available := Available(history, maxTokens);
    if summary.Some? && |groups| > 1 {
      var keep := KeepCount(groups, Monus(available, SummaryCost(summary.value, available)));
      var injected := SummaryMessage(SummaryText(summary.value, available));
      SystemAndSummary(history, injected);
      HeadAndSuffix(history, AsSeq(FirstSystem(history)) + [injected], |groups| - keep);
    } else {
      HeadIsPlain(history);
      HeadAndSuffix(history, AsSeq(FirstSystem(history)) + PriorSummaries(history), FirstFit(groups, available, 0));
    }
  }

  lemma SystemAndSummary(history: seq<Message>, injected: Message)
    requires injected.role == System
    ensures Plain(AsSeq(FirstSystem(history)) + [injected])
  {
    FirstSystemRole(history);
  }

  // ----- compaction without a summary

  /** A suffix of groups holds no system message. */
  lemma SuffixNonSystem(history: seq<Message>, k: nat)
    requires k <= |Groups(NonSystem(history))|
    ensures NonSystem(Flatten(Groups(NonSystem(history))[k..])) == Flatten(Groups(NonSystem(history))[k..])
    ensures NonSystem(history) == Flatten(Groups(NonSystem(history))[..k]) + Flatten(Groups(NonSystem(history))[k..])
  {
    hide Groups, NonSystem, Flatten;
    var groups := Groups(NonSystem(history));
    FlattenGroups(NonSystem(history));
    assert groups == groups[..k] + groups[k..];
    FlattenConcat(groups[..k], groups[k..]);
    NonSystemRoles(history);
    var suffix := Flatten(groups[k..]);
    forall i | 0 <= i < |suffix|
      ensures suffix[i].role != System
    {
      assert suffix[i] == NonSystem(history)[|Flatten(groups[..k])| + i];
    }
    NonSystemIdentity(suffix);
  }

  /**
    Without a summary the result is the system message, the other summaries and the longest
    suffix of whole groups that fits; the estimate is the sum of the three.
   */
  lemma DropKeepsLongestSuffix(history: seq<Message>, maxTokens: nat) returns (first: nat)
    requires Estimate(history) > maxTokens && NonSystem(history) != []
    ensures var groups := Groups(NonSystem(history));
      var available := Available(history, maxTokens);
      var r := Compact(history, maxTokens, None);
      && first < |groups|
      && r.messages == AsSeq(FirstSystem(history)) + PriorSummaries(history) + Flatten(groups[first..])
      && (Estimate(Flatten(groups[first..])) <= available || first + 1 == |groups|)
      && (forall f :: 0 <= f < first ==> Estimate(Flatten(groups[f..])) > available)
      && r.estimatedTokens == Estimate(AsSeq(FirstSystem(history))) + Estimate(PriorSummaries(history))
        + Estimate(Flatten(groups[first..]))
  {
    var groups := Groups(NonSystem(history));
    var available := Available(history, maxTokens);
    first := FirstFit(groups, available, 0);
    FirstFitIsLongest(groups, available, 0);
    var system := AsSeq(FirstSystem(history));
    EstimateConcat(system, PriorSummaries(history));
    EstimateConcat(system + PriorSummaries(history), Flatten(groups[first..]));
  }

  lemma {:induction false} SummariesConcat(p: seq<Message>, q: seq<Message>)
    ensures Summaries(p + q) == Summaries(p) + Summaries(q)
  {
    hide Summaries, IsSummary;
    if p == [] {
      SummariesOfNothing();
      assert p + q == q;
    } else {
      SummariesConcat(p[1..], q);
      SummariesFirst(p[0], p[1..]);
      SummariesFirst(p[0], p[1..] + q);
      assert p == [p[0]] + p[1..] && p + q == [p[0]] + (p[1..] + q);
      Associative(if IsSummary(p[0]) then [p[0]] else [], Summaries(p[1..]), Summaries(q));
    }
  }

  lemma SummariesOfNothing()
    ensures forall q :: Summaries([]) + Summaries(q) == Summaries(q)
  {
  }

  lemma SummariesFirst(m: Message, rest: seq<Message>)
    ensures Summaries([m] + rest) == (if IsSummary(m) then [m] else []) + Summaries(rest)
  {
    hide IsSummary;
    assert ([m] + rest)[1..] == rest;
  }

  lemma {:induction false} NoSummariesInNonSystem(p: seq<Message>)
    requires forall i :: 0 <= i < |p| ==> p[i].role != System
    ensures Summaries(p) == [] && FirstSystem(p) == None
  {
    if p != [] {
      NoSummariesInNonSystem(p[1..]);
    }
  }

  /** The system part of a dropped history is read back unchanged. */
  lemma HeadIsStable(history: seq<Message>, tail: seq<Message>)
    requires forall i :: 0 <= i < |tail| ==> tail[i].role != System
    ensures var result := AsSeq(FirstSystem(history)) + PriorSummaries(history) + tail;
      && FirstSystem(result) == FirstSystem(history) && PriorSummaries(result) == PriorSummaries(history)
      && NonSystem(result) == tail
  {
    var system, prior := AsSeq(FirstSystem(history)), PriorSummaries(history);
    var result := system + prior + tail;
    FirstSystemRole(history);
    SystemMessagesOnly(history);
    NoSummariesInNonSystem(tail);
    NonSystemIdentity(tail);
    HeadIsPlain(history);
    NonSystemConcat(system, prior);
    NonSystemConcat(system + prior, tail);
    if FirstSystem(history) == None {
      assert result == tail;
    } else {
      assert result[0] == system[0];
      SummariesConcat(system, prior);
      SummariesConcat(system + prior, tail);
      assert Summaries(system) == if IsSummary(system[0]) then system else [] by { assert system[1..] == []; }
      assert Summaries(prior) == prior by { PriorIsSummaries(history); }
    }
  }

  lemma PriorIsSummaries(history: seq<Message>)
    ensures Summaries(PriorSummaries(history)) == PriorSummaries(history)
  {
    SystemMessagesOnly(history);
    var all := Summaries(history);
    if all != [] {
      assert Summaries(all) == [all[0]] + Summaries(all[1..]);
      assert all == [all[0]] + all[1..];
      assert ([all[0]] + Summaries(all[1..]))[1..] == Summaries(all[1..]);
    }
  }

  /** Compacting twice without a summary changes nothing more. */
  lemma CompactIdempotent(history: seq<Message>, maxTokens: nat)
    ensures var once := Compact(history, maxTokens, None);
      Compact(once.messages, maxTokens, None).messages == once.messages
      && Compact(once.messages, maxTokens, None).dropped == 0
  {
    var once := Compact(history, maxTokens, None).messages;
    if Estimate(history) > maxTokens && Estimate(once) > maxTokens {
      var groups := Groups(NonSystem(history));
      var available := Available(history, maxTokens);
      var first := FirstFit(groups, available, 0);
      var tail := Flatten(groups[first..]);
      SuffixNonSystem(history, first);
      NonSystemRoles(tail);
      HeadIsStable(history, tail);
      RegroupSuffix(NonSystem(history), first);
      if groups != [] {
        FirstFitIsLongest(groups, available, 0);
      }
      var again := groups[first..];
      assert again[0..] == again;
      assert FirstFit(again, available, 0) == 0;
    }
  }

  // ----- what stays, what is put in front, and what is counted

  /** The first system message, the only one that is not a summary that a compaction keeps. */
  lemma {:induction false} FirstSystemExactly(history: seq<Message>, i: nat)
    requires i < |history| && history[i].role == System
    requires forall j :: 0 <= j < i ==> history[j].role != System
    ensures FirstSystem(history) == Some(history[i])
  {
    if i > 0 {
      FirstSystemExactly(history[1..], i - 1);
    }
  }

  /** What the newest groups cost. */
  function CostOfNewest(groups: seq<seq<Message>>, count: nat): nat
    requires count <= |groups|
  {
    Estimate(Flatten(groups[|groups| - count..]))
  }

  /** As many of the newest groups as the cap and the budget allow, the newest one in any case. */
  ghost predicate IsLargestKeep(groups: seq<seq<Message>>, budget: nat, keep: nat) {
    && 1 <= keep <= Min(4, |groups|) && (keep == 1 || CostOfNewest(groups, keep) <= budget)
    && forall k :: keep < k <= Min(4, |groups|) ==> CostOfNewest(groups, k) > budget
  }

  /** More groups cost more. */
  lemma {:induction false} LargerSuffix(groups: seq<seq<Message>>, small: nat, large: nat)
    requires small <= large <= |groups|
    ensures CostOfNewest(groups, small) <= CostOfNewest(groups, large)
    decreases large - small
  {
    hide Estimate, Flatten;
    if small < large {
      LargerSuffix(groups, small, large - 1);
      LastGroups(groups, large - 1);
    }
  }

  lemma {:induction false} KeepFromIsLargest(groups: seq<seq<Message>>, budget: nat, count: nat)
    requires 1 <= count <= Min(KEEP_LAST_GROUPS, |groups|)
    requires count == 1 || CostOfNewest(groups, count) <= budget
    ensures IsLargestKeep(groups, budget, KeepFrom(groups, budget, count))
    decreases |groups| - count
  {
    hide Estimate, Flatten;
    if count < Min(KEEP_LAST_GROUPS, |groups|) {
      if CostOfNewest(groups, count + 1) <= budget {
        KeepFromIsLargest(groups, budget, count + 1);
      } else {
        forall k | count < k <= Min(KEEP_LAST_GROUPS, |groups|)
          ensures CostOfNewest(groups, k) > budget
        {
          LargerSuffix(groups, count + 1, k);
        }
      }
    }
  }

  lemma KeepCountIsLargest(groups: seq<seq<Message>>, budget: nat)
    requires groups != []
    ensures IsLargestKeep(groups, budget, KeepCount(groups, budget))
  {
    KeepFromIsLargest(groups, budget, 1);
  }

  /** A text of at most so many characters as it is, and otherwise that many and an ellipsis. */
  predicate IsCut(short: string, text: string, max: nat) {
    if |text| <= max then short == text
    else |short| == max + 1 && short[..max] == text[..max] && short[max] == '\U{2026}'
  }

  lemma TruncateIsCut(text: string, max: nat)
    ensures IsCut(TruncateChars(text, max), text, max)
  {
  }

  /** The system messages a compaction keeps are among the history's. */
  lemma {:induction false} HeadCount(history: seq<Message>)
    ensures var head := AsSeq(FirstSystem(history));
      |NonSystem(history)| + |head| + |PriorSummaries(history)| <= |history|
    ensures |NonSystem(history)| + |Summaries(history)| <= |history|
  {
    if history != [] {
      HeadCount(history[1..]);
    }
  }

  /**
    With a summary and more than one group the result is the first system message, the summary behind
    its marker, cut to the reserve, and as many of the newest groups as fit what it leaves. What is
    dropped is what is no longer there.
   */
  lemma SummarisedExactly(history: seq<Message>, maxTokens: nat, summary: string) returns (keep: nat)
    requires |Groups(NonSystem(history))| > 1
    ensures var groups := Groups(NonSystem(history));
      var available := Available(history, maxTokens);
      var r := Compact(history, maxTokens, Some(summary));
      && r.summary.Some? && IsCut(r.summary.value, summary, 4 * Monus(Min(1_200, available / 4), 8))
      && var injected := TextMessage(System, "[Summary of earlier work]\n" + r.summary.value);
      && IsLargestKeep(groups, Monus(available, EstimateMessage(injected)), keep)
      && r.messages == AsSeq(FirstSystem(history)) + [injected] + Flatten(groups[|groups| - keep..])
      && r.dropped + |r.messages| == |history| + 1 && r.estimatedTokens == Estimate(r.messages)
  {
    hide Estimate, KeepCount, Groups, NonSystem, Flatten, FirstSystem, PriorSummaries, IsLargestKeep, EstimateMessage;
    var groups := Groups(NonSystem(history));
    var available := Available(history, maxTokens);
    keep := KeepCount(groups, Monus(available, SummaryCost(summary, available)));
    KeepCountIsLargest(groups, Monus(available, SummaryCost(summary, available)));
    HeadCount(history);
    TruncateIsCut(summary, 4 * Monus(Reserve(available), 8));
    assert SUMMARY_PREFIX + "\n" == "[Summary of earlier work]\n";
    SuffixNonSystem(history, |groups| - keep);
  }

  /** Otherwise nothing is put in, and what is dropped is what is no longer there. */
  lemma UnsummarisedCounts(history: seq<Message>, maxTokens: nat, summary: Option<string>)
    requires summary == None || |Groups(NonSystem(history))| <= 1
    ensures var r := Compact(history, maxTokens, summary);
      && r.summary == None && r.dropped + |r.messages| == |history| && r.estimatedTokens == Estimate(r.messages)
      && (summary == None && Estimate(history) <= maxTokens ==> r.messages == history)
  {
    hide Estimate, Groups, NonSystem, Flatten, FirstSystem, PriorSummaries, FirstFit;
    HeadCount(history);
    SuffixNonSystem(history, FirstFit(Groups(NonSystem(history)), Available(history, maxTokens), 0));
  }
}
