/**
  The events that a provider's stream is read as: what its lines say, the tool calls put together
  from their fragments, and one final event. How the bytes are cut into chunks makes no difference.
 */
module SseEvents {
  import opened Options
  import opened Bytes
  import opened SseFraming

  // ----- from lines to model events

  datatype Choice = Choice(content: string, reasoning: string, fragments: seq<Fragment>, finish: Option<string>)

  /** What one line says once its JSON is read. */
  datatype Parsed = Ignored | Done | Malformed | Data(usage: Option<nat>, choice: Option<Choice>)

  /** The text readers the stream depends on: one line's JSON, and whether a text is a JSON object. */
  datatype Codec = Codec(parse: seq<byte> -> Parsed, json: string -> bool)

  const INVALID_ARGUMENTS := "invalid_tool_arguments"

  datatype ModelEvent =
    | Usage(tokens: nat)
    | Content(text: string)
    | Reasoning(text: string)
    | ToolCall(call: Accumulator)
    | Finish(reason: Option<string>)
    | Failure(code: string)

  /** The stream reader between two lines. */
  datatype Reader = Reader(calls: seq<Accumulator>, finishReason: Option<string>, events: seq<ModelEvent>, halted: bool)

  const START := Reader([], None, [], false)

  /** A call whose arguments are neither empty nor JSON is sent as an error; the stream goes on. */
  function FinishCall(call: Accumulator, codec: Codec): ModelEvent {
    if call.arguments == "" || codec.json(call.arguments) then ToolCall(call) else Failure(INVALID_ARGUMENTS)
  }

  function Flush(calls: seq<Accumulator>, codec: Codec): (r: seq<ModelEvent>)
    ensures |r| == |calls| && forall i :: 0 <= i < |r| ==> r[i] == FinishCall(calls[i], codec)
  {
    seq(|calls|, i requires 0 <= i < |calls| => FinishCall(calls[i], codec))
  }

  function OptionalText(text: string, e: string -> ModelEvent): seq<ModelEvent> {
    if text == "" then [] else [e(text)]
  }

  /** One line, in the order in which the reader sends its events. */
  function ProcessLine(r: Reader, line: Parsed, codec: Codec): Reader {
    if r.halted then r
    else
      match line
      case Ignored => r
      case Done => Reader([], None, r.events + Flush(r.calls, codec) + [Finish(r.finishReason)], true)
      case Malformed => r.(events := r.events + [Failure("provider_json")], halted := true)
      case Data(usage, choice) =>
        var reported := r.events + match usage case None => [] case Some(tokens) => [Usage(tokens)];
        match choice
        case None => r.(events := reported)
        case Some(c) =>
          var told := reported
            + OptionalText(c.content, t => Content(t)) + OptionalText(c.reasoning, t => Reasoning(t));
          var calls := AddFragments(r.calls, c.fragments);
          match c.finish
          case None => r.(calls := calls, events := told)
          case Some(reason) => r.(calls := [], finishReason := Some(reason), events := told + Flush(calls, codec))
  }

  function ProcessLines(r: Reader, lines: seq<seq<byte>>, codec: Codec): Reader
    decreases |lines|
  {
    if lines == [] then r else ProcessLines(ProcessLine(r, codec.parse(lines[0]), codec), lines[1..], codec)
  }

  lemma {:induction false} ProcessConcat(r: Reader, p: seq<seq<byte>>, q: seq<seq<byte>>, codec: Codec)
    ensures ProcessLines(r, p + q, codec) == ProcessLines(ProcessLines(r, p, codec), q, codec)
    decreases |p|
  {
    if p == [] {
      assert p + q == q;
    } else {
      assert (p + q)[0] == p[0] && (p + q)[1..] == p[1..] + q;
      ProcessConcat(ProcessLine(r, codec.parse(p[0]), codec), p[1..], q, codec);
    }
  }

  lemma {:induction false} HaltedStays(r: Reader, lines: seq<seq<byte>>, codec: Codec)
    requires r.halted
    ensures ProcessLines(r, lines, codec) == r
  {
    if lines != [] {
      HaltedStays(r, lines[1..], codec);
    }
  }

  /** The end of the body: cut inside a line is an error; otherwise the calls and one Finish. */
  function EndOfBody(r: Reader, leftover: seq<byte>, codec: Codec): seq<ModelEvent> {
    if r.halted then r.events
    else if leftover != [] then r.events + [Failure("provider_stream_incomplete")]
    else r.events + Flush(r.calls, codec) + [Finish(r.finishReason)]
  }

  // ----- what the events of a stream have to be

  /** What a line says besides its fragments: the usage, the content, the reasoning. */
  function SaidBy(line: Parsed): seq<ModelEvent> {
    if !line.Data? then []
    else
      (if line.usage.Some? then [Usage(line.usage.value)] else [])
      + if line.choice == None then []
        else
          (if line.choice.value.content != "" then [Content(line.choice.value.content)] else [])
          + if line.choice.value.reasoning != "" then [Reasoning(line.choice.value.reasoning)] else []
  }

  function FragmentsOf(line: Parsed): seq<Fragment> {
    if line.Data? && line.choice.Some? then line.choice.value.fragments else []
  }

  /** A finish reason ends a stretch of lines. */
  function ReasonOf(line: Parsed): Option<string> {
    if line.Data? && line.choice.Some? then line.choice.value.finish else None
  }

  predicate Stops(line: Parsed) {
    line.Done? || line.Malformed?
  }

  /** The fragments since the last finish reason. */
  function Pending(lines: seq<Parsed>): seq<Fragment> {
    if lines == [] || ReasonOf(lines[|lines| - 1]).Some? then []
    else Pending(lines[..|lines| - 1]) + FragmentsOf(lines[|lines| - 1])
  }

  function LastReason(lines: seq<Parsed>): Option<string> {
    if lines == [] then None
    else if ReasonOf(lines[|lines| - 1]).Some? then ReasonOf(lines[|lines| - 1])
    else LastReason(lines[..|lines| - 1])
  }

  /** One event for each index that has fragments, in index order, with all of them joined: the call,
      or an error when its arguments are neither empty nor JSON. */
  ghost predicate AreCalls(events: seq<ModelEvent>, fragments: seq<Fragment>, codec: Codec) {
    exists calls: seq<Accumulator> ::
      && Sorted(calls) && (forall index :: Find(calls, index) == Joined(fragments, index))
      && |events| == |calls| && forall i :: 0 <= i < |calls| ==> IsCall(events[i], calls[i], codec)
  }

  predicate IsCall(e: ModelEvent, call: Accumulator, codec: Codec) {
    if call.arguments == "" || codec.json(call.arguments) then e == ToolCall(call)
    else e == Failure("invalid_tool_arguments")
  }

  /** The events of lines that do not stop the stream: what each line says, in order, and behind a
      finish reason the calls of the stretch that it ends. */
  ghost predicate Sent(events: seq<ModelEvent>, lines: seq<Parsed>, codec: Codec)
    decreases |lines|
  {
    if lines == [] then events == []
    else
      exists before, calls ::
        SentOneMore(before, events, calls, lines, codec) && Sent(before, lines[..|lines| - 1], codec)
  }

  /** The last line adds what it says, and the calls if it ends a stretch. */
  ghost predicate SentOneMore(before: seq<ModelEvent>, events: seq<ModelEvent>, calls: seq<ModelEvent>,
    lines: seq<Parsed>, codec: Codec)
    requires lines != []
  {
    var (front, last) := (lines[..|lines| - 1], lines[|lines| - 1]);
    && !Stops(last) && events == before + SaidBy(last) + calls
    && if ReasonOf(last).Some? then AreCalls(calls, Pending(front) + FragmentsOf(last), codec) else calls == []
  }

  /** Where the first line stands that stops the stream, or the number of lines. */
  function StopAt(lines: seq<Parsed>): (n: nat)
    ensures n <= |lines| && (n < |lines| ==> Stops(lines[n]))
    ensures forall i :: 0 <= i < n ==> !Stops(lines[i])
    decreases |lines|
  {
    if lines == [] || Stops(lines[0]) then 0 else 1 + StopAt(lines[1..])
  }

  /** How a body ends that no line stops. */
  datatype Ending = Clean | InsideLine | Broken | TooLarge | NotText

  /** The calls that are left and one Finish with the last finish reason, or an error and nothing of
      the calls. */
  ghost predicate Closes(events: seq<ModelEvent>, lines: seq<Parsed>, ending: Ending, codec: Codec) {
    match ending
    case Clean => exists calls ::
      AreCalls(calls, Pending(lines), codec) && events == calls + [Finish(LastReason(lines))]
    case InsideLine => events == [Failure("provider_stream_incomplete")]
    case Broken => events == [Failure("provider_stream")]
    case TooLarge => events == [Failure("provider_response_too_large")]
    case NotText => events == [Failure("provider_utf8")]
  }

  /** The events of a stream of these lines: up to the first line that stops it, or to its end. */
  ghost predicate Whole(events: seq<ModelEvent>, lines: seq<Parsed>, ending: Ending, codec: Codec) {
    var n := StopAt(lines);
    exists before, last ::
      && Sent(before, lines[..n], codec) && events == before + last
      && if n < |lines| && lines[n].Malformed? then last == [Failure("provider_json")]
         else Closes(last, lines[..n], if n < |lines| then Clean else ending, codec)
  }

  function Parse(lines: seq<seq<byte>>, codec: Codec): (r: seq<Parsed>)
    ensures |r| == |lines|
  {
    seq(|lines|, i requires 0 <= i < |lines| => codec.parse(lines[i]))
  }

  function ParsedLines(stream: seq<byte>, codec: Codec): seq<Parsed> {
    Parse(Lines(stream), codec)
  }

  // ----- the reader sends just that

  /** A reader has sent what its lines ask for, and has kept what is pending. */
  ghost predicate Tracks(r: Reader, lines: seq<Parsed>, codec: Codec) {
    if r.halted then StopAt(lines) < |lines| && Whole(r.events, lines, Clean, codec)
    else
      && StopAt(lines) == |lines| && Sent(r.events, lines, codec)
      && r.calls == AddFragments([], Pending(lines)) && r.finishReason == LastReason(lines)
  }

  lemma StartTracks(codec: Codec)
    ensures Tracks(START, [], codec)
  {
  }

  lemma {:induction false} StopAppend(lines: seq<Parsed>, more: seq<Parsed>)
    ensures StopAt(lines) < |lines| ==> StopAt(lines + more) == StopAt(lines)
    ensures StopAt(lines) == |lines| ==> StopAt(lines + more) == |lines| + StopAt(more)
  {
    if lines == [] {
      assert lines + more == more;
    } else {
      assert (lines + more)[1..] == lines[1..] + more;
      StopAppend(lines[1..], more);
    }
  }

  /** Behind a line that stops the stream nothing matters. */
  lemma WholeStays(events: seq<ModelEvent>, lines: seq<Parsed>, more: seq<Parsed>, ending: Ending, codec: Codec)
    requires StopAt(lines) < |lines| && Whole(events, lines, Clean, codec)
    ensures StopAt(lines + more) == StopAt(lines) && Whole(events, lines + more, ending, codec)
  {
    hide Sent, Closes, StopAt;
    StopAppend(lines, more);
    assert (lines + more)[..StopAt(lines)] == lines[..StopAt(lines)];
  }

  lemma FlushAreCalls(fragments: seq<Fragment>, codec: Codec)
    ensures AreCalls(Flush(AddFragments([], fragments), codec), fragments, codec)
  {
    hide AddFragments, Joined, Find, Sorted;
    var calls := AddFragments([], fragments);
    forall index
      ensures Sorted(calls) && Find(calls, index) == Joined(fragments, index)
    {
      Reassembled(fragments, index);
    }
    assert Sorted(calls) by { Reassembled(fragments, 0); }
  }

  lemma SentMore(before: seq<ModelEvent>, lines: seq<Parsed>, line: Parsed, calls: seq<ModelEvent>, codec: Codec)
    requires Sent(before, lines, codec)
    requires SentOneMore(before, before + SaidBy(line) + calls, calls, lines + [line], codec)
    ensures Sent(before + SaidBy(line) + calls, lines + [line], codec)
  {
    hide SentOneMore, SaidBy;
    assert (lines + [line])[..|lines|] == lines;
  }

  lemma PendingMore(lines: seq<Parsed>, line: Parsed)
    ensures Pending(lines + [line]) == if ReasonOf(line).Some? then [] else Pending(lines) + FragmentsOf(line)
    ensures LastReason(lines + [line]) == if ReasonOf(line).Some? then ReasonOf(line) else LastReason(lines)
  {
    assert (lines + [line])[..|lines|] == lines;
  }

  lemma DataTracks(r: Reader, lines: seq<Parsed>, line: Parsed, codec: Codec)
    requires Tracks(r, lines, codec) && !r.halted && !Stops(line)
    ensures Tracks(ProcessLine(r, line, codec), lines + [line], codec)
  {
    hide Sent, StopAt, AreCalls, AddFragments, Pending, LastReason, Flush, ProcessLine, SaidBy, FragmentsOf, ReasonOf,
      Stops;
    var fragments := Pending(lines) + FragmentsOf(line);
    StopAppend(lines, [line]);
    OneLineStops(line);
    PendingMore(lines, line);
    AddInParts([], Pending(lines), FragmentsOf(line));
    FlushAreCalls(fragments, codec);
    DataDoes(r, line, codec);
    NothingAdded();
    SentMore(r.events, lines, line, CallsBehind(r, line, codec), codec);
  }

  /** The calls that are sent behind a line. */
  function CallsBehind(r: Reader, line: Parsed, codec: Codec): seq<ModelEvent> {
    if ReasonOf(line).Some? then Flush(AddFragments(r.calls, FragmentsOf(line)), codec) else []
  }

  lemma DataDoes(r: Reader, line: Parsed, codec: Codec)
    requires !r.halted && !Stops(line)
    ensures var next := ProcessLine(r, line, codec);
      && !next.halted && next.events == r.events + SaidBy(line) + CallsBehind(r, line, codec)
      && next.calls == (if ReasonOf(line).Some? then [] else AddFragments(r.calls, FragmentsOf(line)))
      && next.finishReason == if ReasonOf(line).Some? then ReasonOf(line) else r.finishReason
  {
    hide AddFragments, Flush;
    NoFragments(r.calls);
    if line.Data? && line.choice.Some? {
      var c := line.choice.value;
      var usage: seq<ModelEvent> := if line.usage.Some? then [Usage(line.usage.value)] else [];
      var content: seq<ModelEvent> := if c.content != "" then [Content(c.content)] else [];
      var reasoning: seq<ModelEvent> := if c.reasoning != "" then [Reasoning(c.reasoning)] else [];
      assert r.events + usage + content + reasoning == r.events + SaidBy(line);
    }
  }

  lemma NoFragments(calls: seq<Accumulator>)
    ensures AddFragments(calls, []) == calls
  {
  }

  lemma NothingAdded()
    ensures AddFragments([], []) == []
  {
  }

  lemma OneLineStops(line: Parsed)
    ensures StopAt([line]) == if Stops(line) then 0 else 1
  {
  }

  lemma StopTracks(r: Reader, lines: seq<Parsed>, line: Parsed, codec: Codec)
    requires Tracks(r, lines, codec) && !r.halted && Stops(line)
    ensures Tracks(ProcessLine(r, line, codec), lines + [line], codec)
  {
    hide Sent, StopAt, AreCalls, AddFragments, Pending, LastReason, Flush;
    StopAppend(lines, [line]);
    OneLineStops(line);
    FlushAreCalls(Pending(lines), codec);
    assert (lines + [line])[..|lines|] == lines;
    var last := if line.Malformed? then [Failure("provider_json")]
      else Flush(r.calls, codec) + [Finish(r.finishReason)];
    assert ProcessLine(r, line, codec).events == r.events + last;
  }

  /** Every line keeps the reader on the track of what has to be sent. */
  lemma {:induction false} LinesTrack(r: Reader, lines: seq<Parsed>, more: seq<seq<byte>>, codec: Codec)
    requires Tracks(r, lines, codec)
    ensures Tracks(ProcessLines(r, more, codec), lines + Parse(more, codec), codec)
    decreases |more|
  {
    hide Tracks, ProcessLine, Stops;
    if more == [] {
      assert lines + Parse(more, codec) == lines;
    } else if r.halted {
      HaltedStays(r, more, codec);
      HaltedTracks(r, lines, Parse(more, codec), codec);
    } else {
      var line := codec.parse(more[0]);
      if Stops(line) {
        StopTracks(r, lines, line, codec);
      } else {
        DataTracks(r, lines, line, codec);
      }
      LinesTrack(ProcessLine(r, line, codec), lines + [line], more[1..], codec);
      assert lines + [line] + Parse(more[1..], codec) == lines + Parse(more, codec);
    }
  }

  lemma HaltedTracks(r: Reader, lines: seq<Parsed>, more: seq<Parsed>, codec: Codec)
    requires Tracks(r, lines, codec) && r.halted
    ensures Tracks(r, lines + more, codec)
  {
    hide Whole, StopAt;
    WholeStays(r.events, lines, more, Clean, codec);
  }

  lemma StreamTracks(stream: seq<byte>, codec: Codec)
    ensures Tracks(ProcessLines(START, Lines(stream), codec), ParsedLines(stream, codec), codec)
  {
    hide Tracks, Lines, ProcessLines;
    StartTracks(codec);
    LinesTrack(START, [], Lines(stream), codec);
    assert [] + ParsedLines(stream, codec) == ParsedLines(stream, codec);
  }

  /** What a reader has sent, and what closes it. */
  lemma ClosedIsWhole(r: Reader, lines: seq<Parsed>, last: seq<ModelEvent>, ending: Ending, codec: Codec)
    requires Tracks(r, lines, codec) && !r.halted && Closes(last, lines, ending, codec)
    ensures Whole(r.events + last, lines, ending, codec)
  {
    hide Sent, StopAt, Closes, AddFragments, Pending, LastReason;
    assert lines[..|lines|] == lines;
  }

  /** The events of a whole stream, read without any chunks. */
  function EventsOf(stream: seq<byte>, codec: Codec): seq<ModelEvent> {
    EndOfBody(ProcessLines(START, Lines(stream), codec), Leftover(stream), codec)
  }

  function EndingOf(leftover: seq<byte>): Ending {
    if leftover != [] then InsideLine else Clean
  }

  lemma BodyIsWhole(r: Reader, lines: seq<Parsed>, leftover: seq<byte>, codec: Codec)
    requires Tracks(r, lines, codec)
    ensures Whole(EndOfBody(r, leftover, codec), lines, EndingOf(leftover), codec)
  {
    hide Sent, StopAt, AddFragments, Pending, LastReason, AreCalls, Flush;
    if r.halted {
      WholeStays(r.events, lines, [], EndingOf(leftover), codec);
      assert lines + [] == lines;
    } else if leftover != [] {
      ClosedIsWhole(r, lines, [Failure("provider_stream_incomplete")], InsideLine, codec);
    } else {
      FlushAreCalls(Pending(lines), codec);
      var last := Flush(r.calls, codec) + [Finish(r.finishReason)];
      ClosedIsWhole(r, lines, last, Clean, codec);
      assert r.events + last == r.events + Flush(r.calls, codec) + [Finish(r.finishReason)];
    }
  }

  /**
    The events of a stream: what its lines say, in order; behind each finish reason, and at a [DONE]
    or a clean end, one event for each index that has had fragments since the one before, in index
    order, with those fragments joined; and one final event, with the last finish reason.
   */
  lemma EventsAreWhole(stream: seq<byte>, codec: Codec)
    ensures Whole(EventsOf(stream, codec), ParsedLines(stream, codec), EndingOf(Leftover(stream)), codec)
  {
    hide Tracks, Lines, Leftover, ProcessLines, Whole, EndOfBody;
    StreamTracks(stream, codec);
    BodyIsWhole(ProcessLines(START, Lines(stream), codec), ParsedLines(stream, codec), Leftover(stream), codec);
  }

  /** The first reader to stop, or the reader after all lines. */
  method ProcessDecoded(r0: Reader, lines: seq<seq<byte>>, codec: Codec) returns (r: Reader)
    ensures r == ProcessLines(r0, lines, codec)
  {
    hide ProcessLine;
    r := r0;
    assert lines[0..] == lines;
    for j := 0 to |lines|
      invariant ProcessLines(r, lines[j..], codec) == ProcessLines(r0, lines, codec)
    {
      if r.halted {
        HaltedStays(r, lines[j..], codec);
        return;
      }
      assert lines[j..][1..] == lines[j + 1..];
      r := ProcessLine(r, codec.parse(lines[j]), codec);
    }
  }

  /** What one more chunk adds. */
  lemma OneMoreChunk(before: seq<byte>, chunk: seq<byte>, valid: seq<byte> -> bool, codec: Codec)
    ensures var decoded := Lines(Leftover(before) + chunk);
      && (AllValid(Lines(before + chunk), valid) <==> AllValid(Lines(before), valid) && AllValid(decoded, valid))
      && ProcessLines(ProcessLines(START, Lines(before), codec), decoded, codec)
        == ProcessLines(START, Lines(before + chunk), codec)
      && Leftover(Leftover(before) + chunk) == Leftover(before + chunk)
  {
    hide Lines, Leftover, ProcessLine;
    var decoded := Lines(Leftover(before) + chunk);
    LinesOfConcat(before, chunk);
    ProcessConcat(START, Lines(before), decoded, codec);
    assert forall i :: 0 <= i < |decoded| ==> decoded[i] == Lines(before + chunk)[|Lines(before)| + i];
    assert forall i :: 0 <= i < |Lines(before)| ==> Lines(before)[i] == Lines(before + chunk)[i];
  }

  /** A reader that has stopped has sent all that the stream will. */
  lemma HaltedIsAll(before: seq<byte>, rest: seq<byte>, codec: Codec)
    requires ProcessLines(START, Lines(before), codec).halted
    ensures ProcessLines(START, Lines(before), codec).events == EventsOf(before + rest, codec)
  {
    hide Lines, Leftover, ProcessLine;
    var more := Lines(Leftover(before) + rest);
    LinesOfConcat(before, rest);
    ProcessConcat(START, Lines(before), more, codec);
    HaltedStays(ProcessLines(START, Lines(before), codec), more, codec);
  }

  /** What is valid text is valid text up to anywhere. */
  lemma ValidUpTo(before: seq<byte>, rest: seq<byte>, valid: seq<byte> -> bool)
    ensures AllValid(Lines(before + rest), valid) ==> AllValid(Lines(before), valid)
  {
    hide Lines, Leftover;
    LinesOfConcat(before, rest);
    assert forall i :: 0 <= i < |Lines(before)| ==> Lines(before)[i] == Lines(before + rest)[i];
  }

  lemma NothingRead(valid: seq<byte> -> bool, codec: Codec)
    ensures Concat<byte>([]) == [] && Leftover([]) == [] && ProcessLines(START, Lines([]), codec) == START
    ensures AllValid(Lines([]), valid) && NoFinish(START.events)
  {
  }

  lemma {:induction false} ConcatSplit(chunks: seq<seq<byte>>, i: nat)
    requires i <= |chunks|
    ensures Concat(chunks) == Concat(chunks[..i]) + Concat(chunks[i..])
  {
    if i > 0 {
      ConcatSplit(chunks[1..], i - 1);
      assert chunks[..i][1..] == chunks[1..][..i - 1] && chunks[1..][i - 1..] == chunks[i..];
    } else {
      assert chunks[..0] == [] && chunks[0..] == chunks;
    }
  }

  /** The first `k` chunks are read and the rest is not: a line stops the stream, or the next chunk is
      too much or not text, or there is none. */
  ghost predicate ReadUpTo(events: seq<ModelEvent>, chunks: seq<seq<byte>>, k: nat, broken: bool, maxBytes: nat,
    valid: seq<byte> -> bool, codec: Codec)
    requires k <= |chunks|
  {
    var s := Concat(chunks[..k]);
    var lines := ParsedLines(s, codec);
    && |s| <= maxBytes && AllValid(Lines(s), valid)
    && if k == |chunks| then Whole(events, lines, if broken then Broken else EndingOf(Leftover(s)), codec)
       else if StopAt(lines) < |lines| then Whole(events, lines, Clean, codec)
       else if |s + chunks[k]| > maxBytes then Whole(events, lines, TooLarge, codec)
       else !AllValid(Lines(s + chunks[k]), valid) && Whole(events, lines, NotText, codec)
  }

  /**
    The drain loop. The events are those of the chunks read; `broken` says whether the connection
    fails behind the last one. For every chunking of a valid stream within the size limit they are
    those of the stream read whole; whatever arrives, one final event ends them.
   */
  method StreamOnce(chunks: seq<seq<byte>>, broken: bool, maxBytes: nat, valid: seq<byte> -> bool, codec: Codec)
    returns (events: seq<ModelEvent>)
    ensures exists k :: 0 <= k <= |chunks| && ReadUpTo(events, chunks, k, broken, maxBytes, valid, codec)
    ensures |Concat(chunks)| <= maxBytes && AllValid(Lines(Concat(chunks)), valid) && !broken ==>
      events == EventsOf(Concat(chunks), codec)
    ensures EndsOnce(events)
  {
    hide Lines, Leftover, ProcessLine, ProcessLines, Concat, AllValid, EndsOnce, NoFinish, EndOfBody, Tracks, Whole,
      StopAt, ParsedLines;
    var r := START;
    var buffer: seq<byte>, received: nat := [], 0;
    ghost var all := Concat(chunks);
    NothingRead(valid, codec);
    for i := 0 to |chunks|
      invariant received == |Concat(chunks[..i])| <= maxBytes && !r.halted && NoFinish(r.events)
      invariant r == ProcessLines(START, Lines(Concat(chunks[..i])), codec)
      invariant AllValid(Lines(Concat(chunks[..i])), valid) && buffer == Leftover(Concat(chunks[..i]))
    {
      var chunk := chunks[i];
      ghost var before, rest := Concat(chunks[..i]), Concat(chunks[i + 1..]);
      assert chunks[..i + 1] == chunks[..i] + [chunk];
      ConcatAppend(chunks[..i], chunk);
      ConcatSplit(chunks, i + 1);
      OneMoreChunk(before, chunk, valid, codec);
      ValidUpTo(before + chunk, rest, valid);
      StreamTracks(before, codec);
      received := received + |chunk|;
      if received > maxBytes {
        FailureEnds(r, ParsedLines(before, codec), "provider_response_too_large", TooLarge, codec);
        events := r.events + [Failure("provider_response_too_large")];
        assert ReadUpTo(events, chunks, i, broken, maxBytes, valid, codec);
        return;
      }
      var lines;
      lines, buffer := DecodeSseLines(buffer, chunk, valid);
      if lines == None {
        FailureEnds(r, ParsedLines(before, codec), "provider_utf8", NotText, codec);
        events := r.events + [Failure("provider_utf8")];
        assert ReadUpTo(events, chunks, i, broken, maxBytes, valid, codec);
        return;
      }
      LinesEndOnce(r, lines.value, codec);
      r := ProcessDecoded(r, lines.value, codec);
      if r.halted {
        HaltedIsRead(chunks, i + 1, broken, maxBytes, valid, codec);
        return r.events;
      }
    }
    assert chunks[..|chunks|] == chunks;
    StreamTracks(all, codec);
    if broken {
      FailureEnds(r, ParsedLines(all, codec), "provider_stream", Broken, codec);
      events := r.events + [Failure("provider_stream")];
    } else {
      BodyEndsOnce(r, buffer, codec);
      BodyIsWhole(r, ParsedLines(all, codec), buffer, codec);
      events := EndOfBody(r, buffer, codec);
    }
    assert ReadUpTo(events, chunks, |chunks|, broken, maxBytes, valid, codec);
  }

  lemma HaltedIsRead(chunks: seq<seq<byte>>, k: nat, broken: bool, maxBytes: nat, valid: seq<byte> -> bool,
    codec: Codec)
    requires k <= |chunks| && |Concat(chunks[..k])| <= maxBytes && AllValid(Lines(Concat(chunks[..k])), valid)
    requires ProcessLines(START, Lines(Concat(chunks[..k])), codec).halted
    ensures var events := ProcessLines(START, Lines(Concat(chunks[..k])), codec).events;
      && ReadUpTo(events, chunks, k, broken, maxBytes, valid, codec) && events == EventsOf(Concat(chunks), codec)
  {
    hide Lines, Leftover, ProcessLines, Concat, AllValid, Whole, StopAt, EventsOf;
    var s := Concat(chunks[..k]);
    var lines := ParsedLines(s, codec);
    var r := ProcessLines(START, Lines(s), codec);
    StreamTracks(s, codec);
    WholeStays(r.events, lines, [], if broken then Broken else EndingOf(Leftover(s)), codec);
    assert lines + [] == lines;
    ConcatSplit(chunks, k);
    HaltedIsAll(s, Concat(chunks[k..]), codec);
  }

  // ----- one Finish, at the end

  /** An event after which nothing more is sent. */
  predicate IsFinal(e: ModelEvent) {
    e.Finish? || (e.Failure? && e.code != INVALID_ARGUMENTS)
  }

  ghost predicate NoFinish(events: seq<ModelEvent>) {
    forall i :: 0 <= i < |events| ==> !IsFinal(events[i])
  }

  /** Nothing is final except the last event. */
  ghost predicate EndsOnce(events: seq<ModelEvent>) {
    events != [] && NoFinish(events[..|events| - 1]) && IsFinal(events[|events| - 1])
  }

  lemma StepEndsOnce(r: Reader, line: Parsed, codec: Codec)
    requires !r.halted && NoFinish(r.events)
    ensures var next := ProcessLine(r, line, codec);
      if next.halted then EndsOnce(next.events) else NoFinish(next.events)
  {
    hide AddFragments;
    match line
    case Done =>
      var body := r.events + Flush(r.calls, codec);
      assert (body + [Finish(r.finishReason)])[..|body|] == body;
    case Malformed =>
      assert (r.events + [Failure("provider_json")])[..|r.events|] == r.events;
    case _ =>
  }

  lemma {:induction false} LinesEndOnce(r: Reader, lines: seq<seq<byte>>, codec: Codec)
    requires !r.halted && NoFinish(r.events)
    ensures var last := ProcessLines(r, lines, codec);
      if last.halted then EndsOnce(last.events) else NoFinish(last.events)
    decreases |lines|
  {
    hide ProcessLine, EndsOnce, NoFinish;
    if lines != [] {
      var next := ProcessLine(r, codec.parse(lines[0]), codec);
      StepEndsOnce(r, codec.parse(lines[0]), codec);
      if next.halted {
        HaltedStays(next, lines[1..], codec);
      } else {
        LinesEndOnce(next, lines[1..], codec);
      }
    }
  }

  lemma NothingSent()
    ensures NoFinish(START.events)
  {
  }

  lemma StopsNowhere(r: Reader, lines: seq<Parsed>, codec: Codec)
    requires Tracks(r, lines, codec) && !r.halted
    ensures StopAt(lines) == |lines|
  {
    hide StopAt;
  }

  /** A failure of the stream ends it, whatever calls are pending. */
  lemma FailureEnds(r: Reader, lines: seq<Parsed>, code: string, ending: Ending, codec: Codec)
    requires NoFinish(r.events) && code != INVALID_ARGUMENTS && Tracks(r, lines, codec) && !r.halted
    requires Closes([Failure(code)], lines, ending, codec)
    ensures EndsOnce(r.events + [Failure(code)]) && Whole(r.events + [Failure(code)], lines, ending, codec)
    ensures StopAt(lines) == |lines|
  {
    hide Tracks, Whole, Closes;
    var events := r.events + [Failure(code)];
    assert events[..|r.events|] == r.events;
    StopsNowhere(r, lines, codec);
    ClosedIsWhole(r, lines, [Failure(code)], ending, codec);
  }

  lemma BodyEndsOnce(r: Reader, leftover: seq<byte>, codec: Codec)
    requires if r.halted then EndsOnce(r.events) else NoFinish(r.events)
    ensures EndsOnce(EndOfBody(r, leftover, codec))
  {
    if !r.halted {
      var body := r.events + Flush(r.calls, codec);
      assert (body + [Finish(r.finishReason)])[..|body|] == body;
      assert (r.events + [Failure("provider_stream_incomplete")])[..|r.events|] == r.events;
    }
  }

  /** Every stream ends with exactly one final event, a Finish or a failure of the stream, and it
      comes last; a call with broken arguments is an error that does not end the stream. */
  lemma StreamEndsOnce(stream: seq<byte>, codec: Codec)
    ensures EndsOnce(EventsOf(stream, codec))
  {
    hide Lines, Leftover, ProcessLines;
    NothingSent();
    LinesEndOnce(START, Lines(stream), codec);
    BodyEndsOnce(ProcessLines(START, Lines(stream), codec), Leftover(stream), codec);
  }
}
