/**
  What the run makes of a provider's stream, item by item: the notes it writes down and the answer
  it puts together, up to the first item that ends the stream.
 */
module StreamReading {
  import opened Options
  import opened Transcript
  import opened Journal
  import opened Protocol

  predicate EndsStream(item: StreamItem) {
    item.Finish? || item.StreamError?
  }

  /** The items before the first one that ends the stream. */
  function UpToEnd(items: seq<StreamItem>): (r: seq<StreamItem>)
    ensures r <= items
    ensures |r| < |items| ==> EndsStream(items[|r|])
  {
    if items == [] || EndsStream(items[0]) then [] else [items[0]] + UpToEnd(items[1..])
  }

  /** What reading an item writes down, when it does not end the stream. */
  function NoteOf(item: StreamItem): seq<Effect> {
    match item
    case Content(text) => [ContentDelta(text)]
    case Reasoning(text) => [ReasoningDelta(text)]
    case Call(call) => [CallStreamed(call)]
    case UsageReport(report) => [UsageUpdated(report)]
    case Finish => []
    case StreamError(_, _) => []
  }

  function NotesOf(items: seq<StreamItem>): seq<Effect> {
    if items == [] then [] else NotesOf(items[..|items| - 1]) + NoteOf(items[|items| - 1])
  }

  /** The text of the items. */
  function TextIn(items: seq<StreamItem>): string {
    if items == [] then ""
    else TextIn(items[..|items| - 1]) + match items[|items| - 1] case Content(text) => text case _ => ""
  }

  /** The calls among the items, in order. */
  function CallsIn(items: seq<StreamItem>): seq<ToolCall> {
    if items == [] then []
    else CallsIn(items[..|items| - 1]) + match items[|items| - 1] case Call(call) => [call] case _ => []
  }

  function ReportsIn(items: seq<StreamItem>): seq<Usage> {
    if items == [] then []
    else ReportsIn(items[..|items| - 1]) + match items[|items| - 1] case UsageReport(report) => [report] case _ => []
  }

  /** The stream that a log ends inside of, and what was written down since it opened. */
  datatype Reading = NoStream | Inside(items: seq<StreamItem>, noted: seq<Effect>)

  function ReadOn(r: Reading, e: Effect): Reading {
    if e.StreamOpened? then Inside(e.items, [])
    else if r.Inside? && (IsDelta(e) || e.UsageUpdated?) then Inside(r.items, r.noted + [e])
    else NoStream
  }

  function ReadingOf(log: seq<Effect>): Reading {
    if log == [] then NoStream else ReadOn(ReadingOf(log[..|log| - 1]), log[|log| - 1])
  }

  /** Everything the stream delivers before its end was read, and nothing else. */
  predicate ReadToEnd(r: Reading) {
    r.Inside? && r.noted == NotesOf(UpToEnd(r.items))
  }

  /** The answer is what was delivered up to a Finish, or up to the end of the stream. */
  predicate AnswersStream(r: Reading, content: Option<string>, calls: seq<ToolCall>) {
    ReadToEnd(r) &&
    var read := UpToEnd(r.items);
    && (|read| < |r.items| ==> r.items[|read|].Finish?)
    && content == (if TextIn(read) == "" then None else Some(TextIn(read)))
    && calls == CallsIn(read)
  }

  /** The error is the one the stream ends with. */
  predicate FailsStream(r: Reading, retryable: bool, code: string) {
    ReadToEnd(r) &&
    var read := UpToEnd(r.items);
    |read| < |r.items| && r.items[|read|] == StreamError(retryable, code)
  }

  lemma ReadsOn(log: seq<Effect>, e: Effect)
    ensures ReadingOf(log + [e]) == ReadOn(ReadingOf(log), e)
  {
    assert (log + [e])[..|log|] == log;
  }

  /** No item so far ends the stream. */
  predicate Open(items: seq<StreamItem>) {
    forall i :: 0 <= i < |items| ==> !EndsStream(items[i])
  }

  /** One more item. */
  lemma OneMoreItem(items: seq<StreamItem>, n: nat)
    requires n < |items|
    ensures var (read, item) := (items[..n], items[n]);
      && NotesOf(items[..n + 1]) == NotesOf(read) + NoteOf(item)
      && TextIn(items[..n + 1]) == TextIn(read) + (match item case Content(text) => text case _ => "")
      && CallsIn(items[..n + 1]) == CallsIn(read) + (match item case Call(call) => [call] case _ => [])
      && ReportsIn(items[..n + 1]) == ReportsIn(read) + (match item case UsageReport(u) => [u] case _ => [])
      && (Open(read) && !EndsStream(item) ==> Open(items[..n + 1]))
  {
    assert items[..n + 1][..n] == items[..n];
  }

  lemma NothingRead(items: seq<StreamItem>)
    ensures NotesOf(items[..0]) == [] && TextIn(items[..0]) == "" && CallsIn(items[..0]) == [] && Open(items[..0])
  {
  }

  /** Where the first item that ends the stream is, or that there is none. */
  lemma {:induction false} EndIs(items: seq<StreamItem>, n: nat)
    requires n <= |items| && Open(items[..n]) && (n < |items| ==> EndsStream(items[n]))
    ensures UpToEnd(items) == items[..n]
    decreases n
  {
    if n > 0 {
      assert items[..n][0] == items[0];
      assert items[1..][..n - 1] == items[..n][1..];
      EndIs(items[1..], n - 1);
      assert items[..n] == [items[0]] + items[1..][..n - 1];
    }
  }

  /** A log that ends inside a stream: where it was opened, and that only notes follow. */
  lemma {:induction false} InsideSince(log: seq<Effect>) returns (k: nat)
    requires ReadingOf(log).Inside?
    ensures k < |log| && log[k] == StreamOpened(ReadingOf(log).items) && log[k + 1..] == ReadingOf(log).noted
  {
    var last := |log| - 1;
    if log[last].StreamOpened? {
      k := last;
    } else {
      k := InsideSince(log[..last]);
      assert log[k + 1..] == log[..last][k + 1..] + [log[last]];
    }
  }

  /** The notes report the usage of the items, in order. */
  lemma {:induction false} UsagesNoted(items: seq<StreamItem>)
    ensures Usages(NotesOf(items)) == ReportsIn(items)
  {
    if items != [] {
      var last := |items| - 1;
      UsagesNoted(items[..last]);
      ReadConcat(NotesOf(items[..last]), NoteOf(items[last]));
      NoteUsage(items[last]);
    }
  }

  lemma NoteUsage(item: StreamItem)
    ensures Usages(NoteOf(item)) == match item case UsageReport(report) => [report] case _ => []
  {
    if NoteOf(item) != [] {
      ReadOne(NoteOf(item)[0], UsageOf);
      assert NoteOf(item) == [NoteOf(item)[0]];
    }
  }
}
