/**
  History compaction: exchanges are grouped into indivisible units, the groups a summary should
  cover are chosen, and the history is compacted with or without that summary.
 */
module Compaction {
  import opened Basics
  import opened Options
  import opened Transcript

  const CHARS_PER_TOKEN := 4
  const KEEP_LAST_GROUPS := 4
  const SUMMARY_PREFIX := "[Summary of earlier work]"
  const SUMMARY_RESERVE := 1_200
  const IMAGE_PART_TOKEN_ESTIMATE := 1_500

  // ----- token estimates

  /** How many characters so many bytes can tell apart: the first byte keeps `7 - bytes` bits of its own,
      each further one six. */
  function Capacity(bytes: nat): nat {
    match bytes
    case 0 => 0
    case 1 => 0x80
    case 2 => 32 * 64
    case 3 => 16 * 64 * 64
    case _ => 8 * 64 * 64 * 64
  }

  /** The length of a character in UTF-8 (section 3 of RFC 3629): the fewest bytes that can tell it. */
  function Utf8Width(c: char): (width: nat)
    ensures 1 <= width <= 4 && Capacity(width - 1) <= c as int < Capacity(width)
  {
    var code := c as int;
    if code < 0x80 then 1 else if code < 0x800 then 2 else if code < 0x1_0000 then 3 else 4
  }

  function Utf8Len(text: string): nat {
    if text == "" then 0 else Utf8Width(text[0]) + Utf8Len(text[1..])
  }

  function EstimateCalls(calls: seq<ToolCall>): nat {
    if calls == [] then 0
    else
      20 + Utf8Len(calls[0].name) / CHARS_PER_TOKEN + Utf8Len(calls[0].arguments) / CHARS_PER_TOKEN
      + EstimateCalls(calls[1..])
  }

  function EstimateParts(parts: seq<Part>): nat {
    if parts == [] then 0
    else
      (match parts[0] case Text(text) => Utf8Len(text) / CHARS_PER_TOKEN case Image => IMAGE_PART_TOKEN_ESTIMATE)
      + EstimateParts(parts[1..])
  }

  function EstimateMessage(m: Message): nat {
    (match m.content case None => 0 case Some(text) => Max(Utf8Len(text) / CHARS_PER_TOKEN, 1))
    + EstimateCalls(m.toolCalls) + EstimateParts(m.parts) + if m.role == Tool then 10 else 0
  }

  function Estimate(history: seq<Message>): nat {
    if history == [] then 0 else EstimateMessage(history[0]) + Estimate(history[1..])
  }

  function Total(costs: seq<nat>): nat {
    if costs == [] then 0 else costs[0] + Total(costs[1..])
  }

  function NameCosts(calls: seq<ToolCall>): seq<nat> {
    seq(|calls|, i requires 0 <= i < |calls| => Utf8Len(calls[i].name) / 4)
  }

  function ArgumentCosts(calls: seq<ToolCall>): seq<nat> {
    seq(|calls|, i requires 0 <= i < |calls| => Utf8Len(calls[i].arguments) / 4)
  }

  function TextCosts(parts: seq<Part>): seq<nat> {
    seq(|parts|, i requires 0 <= i < |parts| => match parts[i] case Text(text) => Utf8Len(text) / 4 case Image => 0)
  }

  function Images(parts: seq<Part>): nat {
    if parts == [] then 0 else (if parts[0].Image? then 1 else 0) + Images(parts[1..])
  }

  lemma {:induction false} CallsCost(calls: seq<ToolCall>)
    ensures EstimateCalls(calls) == 20 * |calls| + Total(NameCosts(calls)) + Total(ArgumentCosts(calls))
  {
    hide Utf8Len;
    if calls != [] {
      CallsCost(calls[1..]);
      assert NameCosts(calls)[1..] == NameCosts(calls[1..]);
      assert ArgumentCosts(calls)[1..] == ArgumentCosts(calls[1..]);
    }
  }

  lemma {:induction false} PartsCost(parts: seq<Part>)
    ensures EstimateParts(parts) == 1_500 * Images(parts) + Total(TextCosts(parts))
  {
    hide Utf8Len;
    if parts != [] {
      PartsCost(parts[1..]);
      assert TextCosts(parts)[1..] == TextCosts(parts[1..]);
    }
  }

  /** A text costs a quarter of its bytes but never nothing, a result 10 more, a call 20 more, and an
      image 1500. */
  lemma EstimateExactly(m: Message)
    ensures EstimateMessage(m) ==
      (if m.content == None then 0 else Max(Utf8Len(m.content.value) / 4, 1)) + (if m.role == Tool then 10 else 0)
      + 20 * |m.toolCalls| + Total(NameCosts(m.toolCalls)) + Total(ArgumentCosts(m.toolCalls))
      + 1_500 * Images(m.parts) + Total(TextCosts(m.parts))
  {
    CallsCost(m.toolCalls);
    PartsCost(m.parts);
  }

  lemma EstimateNothing()
    ensures Estimate([]) == 0
  {
  }

  lemma {:induction false} EstimateConcat(p: seq<Message>, q: seq<Message>)
    ensures Estimate(p + q) == Estimate(p) + Estimate(q)
  {
    if p == [] {
      assert p + q == q;
    } else {
      assert (p + q)[1..] == p[1..] + q;
      EstimateConcat(p[1..], q);
    }
  }

  // ----- groups

  function NonSystem(history: seq<Message>): (r: seq<Message>)
    ensures |r| <= |history|
  {
    if history == [] then []
    else (if history[0].role == System then [] else [history[0]]) + NonSystem(history[1..])
  }

  /** The number of leading tool results. */
  function LeadingTools(messages: seq<Message>): (n: nat)
    ensures n <= |messages|
  {
    if messages == [] || messages[0].role != Tool then 0 else 1 + LeadingTools(messages[1..])
  }

  /** The length of the first group: an assistant message with calls owns the results after it. */
  function GroupLength(messages: seq<Message>): (n: nat)
    requires messages != []
    ensures 1 <= n <= |messages|
  {
    1 + if HasCalls(messages[0]) then LeadingTools(messages[1..]) else 0
  }

  function Groups(messages: seq<Message>): (groups: seq<seq<Message>>)
    ensures |groups| <= |messages| && (messages != [] ==> groups != [])
    decreases |messages|
  {
    if messages == [] then []
    else var n := GroupLength(messages); [messages[..n]] + Groups(messages[n..])
  }

  function Flatten(groups: seq<seq<Message>>): seq<Message> {
    if groups == [] then [] else groups[0] + Flatten(groups[1..])
  }

  lemma {:induction false} FlattenConcat(p: seq<seq<Message>>, q: seq<seq<Message>>)
    ensures Flatten(p + q) == Flatten(p) + Flatten(q)
  {
    if p == [] {
      assert p + q == q;
    } else {
      assert (p + q)[1..] == p[1..] + q;
      FlattenConcat(p[1..], q);
    }
  }

  lemma FlattenFirst(group: seq<Message>, groups: seq<seq<Message>>)
    ensures Flatten([group] + groups) == group + Flatten(groups)
  {
    assert ([group] + groups)[1..] == groups;
  }

  /** Grouping loses nothing. */
  lemma {:induction false} FlattenGroups(messages: seq<Message>)
    ensures Flatten(Groups(messages)) == messages
    decreases |messages|
  {
    hide GroupLength;
    if messages != [] {
      var n := GroupLength(messages);
      FlattenGroups(messages[n..]);
      FlattenFirst(messages[..n], Groups(messages[n..]));
      assert messages == messages[..n] + messages[n..];
    }
  }

  /** Any suffix of the groups is the grouping of its own messages. */
  lemma {:induction false} RegroupSuffix(messages: seq<Message>, k: nat)
    requires k <= |Groups(messages)|
    ensures Groups(Flatten(Groups(messages)[k..])) == Groups(messages)[k..]
    decreases |messages|
  {
    hide GroupLength;
    if k == 0 {
      FlattenGroups(messages);
    } else {
      var n := GroupLength(messages);
      RegroupSuffix(messages[n..], k - 1);
      assert Groups(messages)[k..] == Groups(messages[n..])[k - 1..];
    }
  }

  /** `n` results followed by something that is not a result are exactly the leading results. */
  lemma {:induction false} ResultsLead(messages: seq<Message>, n: nat)
    requires n <= |messages|
    requires forall i :: 0 <= i < n ==> messages[i].role == Tool
    requires n < |messages| ==> messages[n].role != Tool
    ensures LeadingTools(messages) == n
    decreases n
  {
    if n > 0 {
      ResultsLead(messages[1..], n - 1);
    }
  }

  lemma ExchangeIsGroup(messages: seq<Message>)
    requires WellFormed(messages) && messages != []
    ensures GroupLength(messages) == ExchangeLength(messages[0])
  {
    var n := ExchangeLength(messages[0]);
    if HasCalls(messages[0]) {
      var results := messages[..n][1..];
      assert forall i :: 0 <= i < n - 1 ==> messages[1..][i] == results[i];
      assert n < |messages| ==> messages[n..][..ExchangeLength(messages[n])][0] == messages[n];
      ResultsLead(messages[1..], n - 1);
    }
  }

  /** In a well-formed transcript a group is an exchange, so every suffix of groups is well-formed. */
  lemma {:induction false} SuffixWellFormed(messages: seq<Message>, k: nat)
    requires WellFormed(messages) && k <= |Groups(messages)|
    ensures WellFormed(Flatten(Groups(messages)[k..]))
    decreases |messages|
  {
    hide Exchange;
    if k == 0 {
      FlattenGroups(messages);
    } else {
      var n := ExchangeLength(messages[0]);
      ExchangeIsGroup(messages);
      assert Groups(messages)[k..] == Groups(messages[n..])[k - 1..];
      SuffixWellFormed(messages[n..], k - 1);
    }
  }

  lemma {:induction false} NonSystemConcat(p: seq<Message>, q: seq<Message>)
    ensures NonSystem(p + q) == NonSystem(p) + NonSystem(q)
  {
    if p == [] {
      assert p + q == q;
    } else {
      assert (p + q)[0] == p[0] && (p + q)[1..] == p[1..] + q;
      NonSystemConcat(p[1..], q);
    }
  }

  lemma {:induction false} NonSystemIdentity(p: seq<Message>)
    requires forall i :: 0 <= i < |p| ==> p[i].role != System
    ensures NonSystem(p) == p
  {
    if p != [] {
      NonSystemIdentity(p[1..]);
    }
  }

  lemma {:induction false} NonSystemRoles(p: seq<Message>)
    ensures forall i :: 0 <= i < |NonSystem(p)| ==> NonSystem(p)[i].role != System
  {
    if p != [] {
      NonSystemRoles(p[1..]);
    }
  }

  lemma ExchangeNonSystem(e: seq<Message>)
    requires Exchange(e)
    ensures NonSystem(e) == if e[0].role == System then [] else e
  {
    if e[0].role == System {
      assert e[1..] == [];
    } else {
      assert forall i :: 1 <= i < |e| ==> e[i] == e[1..][i - 1];
      NonSystemIdentity(e);
    }
  }

  lemma {:induction false} NonSystemWellFormed(history: seq<Message>)
    requires WellFormed(history)
    ensures WellFormed(NonSystem(history))
    decreases |history|
  {
    hide Exchange;
    if history != [] {
      var n := ExchangeLength(history[0]);
      assert history == history[..n] + history[n..];
      NonSystemConcat(history[..n], history[n..]);
      NonSystemWellFormed(history[n..]);
      ExchangeNonSystem(history[..n]);
      if history[0].role == System {
        assert NonSystem(history) == NonSystem(history[n..]);
      } else {
        ExchangeIsWellFormed(history[..n]);
        WellFormedConcat(history[..n], NonSystem(history[n..]));
      }
    }
  }

  // ----- which groups stay

  /** Extends the newest `count` groups by one while they fit `budget`, up to KEEP_LAST_GROUPS. */
  function KeepFrom(groups: seq<seq<Message>>, budget: nat, count: nat): (keep: nat)
    requires count <= |groups|
    ensures count <= keep <= |groups|
    decreases |groups| - count
  {
    if count < Min(KEEP_LAST_GROUPS, |groups|) && Estimate(Flatten(groups[|groups| - count - 1..])) <= budget
    then KeepFrom(groups, budget, count + 1)
    else count
  }

  function KeepCount(groups: seq<seq<Message>>, budget: nat): (keep: nat)
    ensures keep <= |groups| && (groups != [] ==> keep >= 1)
  {
    if groups == [] then 0 else KeepFrom(groups, budget, 1)
  }

  /** The first of the groups to stay: oldest groups go until the rest fits or one is left. */
  function FirstFit(groups: seq<seq<Message>>, available: nat, first: nat): (r: nat)
    requires first <= |groups|
    ensures first <= r <= |groups| && (first < |groups| ==> r < |groups|)
    decreases |groups| - first
  {
    if first + 1 < |groups| && Estimate(Flatten(groups[first..])) > available
    then FirstFit(groups, available, first + 1)
    else first
  }

  /** No longer suffix of the groups fits, and this one does unless it is a single group. */
  lemma {:induction false} FirstFitIsLongest(groups: seq<seq<Message>>, available: nat, first: nat)
    requires first < |groups|
    ensures var r := FirstFit(groups, available, first);
      && (Estimate(Flatten(groups[r..])) <= available || r + 1 == |groups|)
      && forall f :: first <= f < r ==> Estimate(Flatten(groups[f..])) > available
    decreases |groups| - first
  {
    hide Estimate, Flatten;
    if first + 1 < |groups| && Estimate(Flatten(groups[first..])) > available {
      FirstFitIsLongest(groups, available, first + 1);
    }
  }

  /** A larger budget keeps at least as many groups. */
  lemma {:induction false} KeepMonotone(groups: seq<seq<Message>>, small: nat, large: nat, count: nat)
    requires small <= large && count <= |groups|
    ensures KeepFrom(groups, small, count) <= KeepFrom(groups, large, count)
    decreases |groups| - count
  {
    hide Estimate, Flatten;
    if count < Min(KEEP_LAST_GROUPS, |groups|) && Estimate(Flatten(groups[|groups| - count - 1..])) <= small {
      KeepMonotone(groups, small, large, count + 1);
    }
  }

  /** The kept groups fit the budget unless only the newest one is kept. */
  lemma {:induction false} KeptFits(groups: seq<seq<Message>>, budget: nat, count: nat)
    requires count <= |groups|
    ensures var keep := KeepFrom(groups, budget, count);
      keep == count || Estimate(Flatten(groups[|groups| - keep..])) <= budget
    decreases |groups| - count
  {
    hide Estimate, Flatten;
    if count < Min(KEEP_LAST_GROUPS, |groups|) && Estimate(Flatten(groups[|groups| - count - 1..])) <= budget {
      KeptFits(groups, budget, count + 1);
    }
  }

  // ----- summaries

  predicate IsSummary(m: Message) {
    m.role == System && m.content.Some? && SUMMARY_PREFIX <= m.content.value
  }

  function Summaries(history: seq<Message>): seq<Message> {
    if history == [] then []
    else (if IsSummary(history[0]) then [history[0]] else []) + Summaries(history[1..])
  }

  function Reserve(available: nat): nat {
    Min(SUMMARY_RESERVE, available / 4)
  }

  /** At most `max` characters, and an ellipsis when some were cut. */
  function TruncateChars(text: string, max: nat): string {
    if |text| <= max then text else text[..max] + "\U{2026}"
  }

  function SummaryText(summary: string, available: nat): string {
    TruncateChars(summary, Monus(Reserve(available), 8) * CHARS_PER_TOKEN)
  }

  function SummaryMessage(text: string): Message {
    TextMessage(System, SUMMARY_PREFIX + "\n" + text)
  }

  /** What the injected summary costs. */
  function SummaryCost(summary: string, available: nat): nat {
    EstimateMessage(SummaryMessage(SummaryText(summary, available)))
  }

  function FirstSystem(history: seq<Message>): Option<Message> {
    if history == [] then None
    else if history[0].role == System then Some(history[0])
    else FirstSystem(history[1..])
  }

  function AsSeq(m: Option<Message>): seq<Message> {
    match m case None => [] case Some(value) => [value]
  }

  /** The tokens left for everything but the first system message. */
  function Available(history: seq<Message>, maxTokens: nat): nat {
    Monus(maxTokens, Estimate(AsSeq(FirstSystem(history))))
  }

  /** The summaries beyond the first system message. */
  function PriorSummaries(history: seq<Message>): seq<Message> {
    var all := Summaries(history);
    var system := FirstSystem(history);
    if system.Some? && IsSummary(system.value) && all != [] then all[1..] else all
  }

  // ----- the two selections

  function DropCandidates(history: seq<Message>, maxTokens: nat): seq<Message> {
    var groups := Groups(NonSystem(history));
    var available := Available(history, maxTokens);
    var keep := KeepCount(groups, Monus(available, Reserve(available)));
    if |groups| <= keep then [] else Summaries(history) + Flatten(groups[..|groups| - keep])
  }

  datatype Compacted = Compacted(messages: seq<Message>, dropped: nat, estimatedTokens: nat, summary: Option<string>)

  /** The result of a compaction: what `CompactHistory` computes with loops. */
  function Compact(history: seq<Message>, maxTokens: nat, summary: Option<string>): Compacted {
    var groups := Groups(NonSystem(history));
    var available := Available(history, maxTokens);
    var system := AsSeq(FirstSystem(history));
    if summary == None && Estimate(history) <= maxTokens then
      Compacted(history, 0, Estimate(history), None)
    else if summary.Some? && |groups| > 1 then
      var text := SummaryText(summary.value, available);
      var keep := KeepCount(groups, Monus(available, SummaryCost(summary.value, available)));
      var retained := Flatten(groups[|groups| - keep..]);
      var messages := system + [SummaryMessage(text)] + retained;
      Compacted(messages, Monus(|history|, |retained| + |system|), Estimate(messages), Some(text))
    else
      var messages := system + PriorSummaries(history) + Flatten(groups[FirstFit(groups, available, 0)..]);
      Compacted(messages, Monus(|history|, |messages|), Estimate(messages), None)
  }
}
