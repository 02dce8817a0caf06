/**
  Event delivery to an ACP client. A run's events are appended to a durable log, in order, and
  each is broadcast some time after that through a ring that drops its oldest entries. A
  subscriber that is overrun pages through the log and goes on with the ring. Several tasks append
  and broadcast, so events may reach the ring in another order than the log; other runs share it.
 */
module EventDelivery {
  import opened Options

  datatype Event = Progress(payload: string) | RunCompleted(reason: string) | RunFailed | RunCancelled

  datatype Envelope = Envelope(runId: string, seqNo: nat, event: Event)

  datatype Page = Page(events: seq<Envelope>, nextCursor: Option<nat>, hasMore: bool)

  /** `Blocked`: the ring is empty, will stay empty and is never closed. */
  datatype Received = Got(envelope: Envelope) | Lagged | Closed | Blocked

  const PAGE_LIMIT := 100

  function StopReason(reason: string): string {
    if reason in {"cancelled", "canceled"} then "cancelled"
    else if reason in {"max_tokens", "length"} then "max_tokens"
    else if reason in {"max_iterations", "max_turns"} then "max_turn_requests"
    else if reason in {"error", "failed", "denied"} then "refusal"
    else "end_turn"
  }

  /** The stop reason of an event that ends the run. */
  function TerminalReason(e: Event): Option<string> {
    match e
    case Progress(_) => None
    case RunCompleted(reason) => Some(StopReason(reason))
    case RunFailed => Some("refusal")
    case RunCancelled => Some("cancelled")
  }

  /** How the client is told of the run's end: each stop reason stands for a few of the run's reasons,
      and `end_turn` for all the others. */
  predicate IsAnswerTo(e: Event, stopReason: string) {
    match e
    case Progress(_) => false
    case RunFailed => stopReason == "refusal"
    case RunCancelled => stopReason == "cancelled"
    case RunCompleted(reason) =>
      && stopReason in ["cancelled", "max_tokens", "max_turn_requests", "refusal", "end_turn"]
      && (stopReason == "cancelled" <==> reason in ["cancelled", "canceled"])
      && (stopReason == "max_tokens" <==> reason in ["max_tokens", "length"])
      && (stopReason == "max_turn_requests" <==> reason in ["max_iterations", "max_turns"])
      && (stopReason == "refusal" <==> reason in ["error", "failed", "denied"])
  }

  lemma ReasonIsAnswer(e: Event)
    ensures TerminalReason(e).Some? <==> !e.Progress?
    ensures TerminalReason(e).Some? ==> IsAnswerTo(e, TerminalReason(e).value)
  {
  }

  /** Sequence numbers start at 1 or later and increase. */
  ghost predicate Ordered(log: seq<Envelope>) {
    && (forall i :: 0 <= i < |log| ==> log[i].seqNo >= 1)
    && forall i, j :: 0 <= i < j < |log| ==> log[i].seqNo < log[j].seqNo
  }

  ghost predicate NoTerminal(events: seq<Envelope>) {
    forall i :: 0 <= i < |events| ==> TerminalReason(events[i].event) == None
  }

  /** The number of events up to a sequence number. */
  function CountUpTo(log: seq<Envelope>, seqNo: nat): (n: nat)
    ensures n <= |log|
    ensures forall i :: 0 <= i < n ==> log[i].seqNo <= seqNo
    ensures n < |log| ==> log[n].seqNo > seqNo
  {
    if log == [] || log[0].seqNo > seqNo then 0
    else
      var n := 1 + CountUpTo(log[1..], seqNo);
      assert forall i :: 1 <= i < n ==> log[i] == log[1..][i - 1];
      assert n < |log| ==> log[n] == log[1..][n - 1];
      n
  }

  // ----- the subscriber and the world around it

  /**
    `log` is the run's complete durable log, `stream` everything that will ever be broadcast on the
    connection after the subscription; `closes` says whether the ring is closed after that, and
    `readable` whether every read of the log succeeds.
   */
  datatype World = World(
    log: seq<Envelope>, stream: seq<Envelope>, runId: string, capacity: nat, closes: bool, readable: bool)

  /** Only events of the log are broadcast for the run, in any order. */
  ghost predicate Sound(w: World) {
    && w.capacity >= 1 && Ordered(w.log)
    && (forall i :: 0 <= i < |w.stream| && w.stream[i].runId == w.runId ==> w.stream[i] in w.log)
    && forall j :: 0 <= j < |w.log| ==> w.log[j].runId == w.runId
  }

  datatype Mode = Listening | Handling(envelope: Envelope) | CatchingUp | Shut

  /** `published` and `durable` count what is in the ring's past and in the log; `cursor` is the
      receiver's position, `sent` what was projected to the client. */
  datatype State = State(published: nat, durable: nat, cursor: nat, sent: seq<Envelope>, mode: Mode, readFailed: bool)

  const INITIAL := State(0, 0, 0, [], Listening, false)

  datatype Step = Append(count: nat) | Publish | Receive | Close | Project | ReadPage(size: nat) | ReadFails

  function LastSeq(sent: seq<Envelope>): nat {
    if sent == [] then 0 else sent[|sent| - 1].seqNo
  }

  /** A terminal event has been sent: the prompt is over. */
  predicate Over(sent: seq<Envelope>) {
    sent != [] && TerminalReason(sent[|sent| - 1].event).Some?
  }

  predicate Idle(s: State) {
    s.mode == Listening && !Over(s.sent)
  }

  /** A live event is sent unless it is not newer than what was sent. */
  function Deliver(w: World, sent: seq<Envelope>, e: Envelope): seq<Envelope> {
    if e.runId == w.runId && e.seqNo > LastSeq(sent) then sent + [e] else sent
  }

  /** A list of events up to the first terminal one. */
  function UpToTerminal(events: seq<Envelope>): (r: seq<Envelope>)
    ensures r <= events
  {
    if events == [] then []
    else if TerminalReason(events[0].event).Some? then [events[0]]
    else [events[0]] + UpToTerminal(events[1..])
  }

  /** What the log holds after what was sent, at most one more than a page. */
  function Eligible(w: World, s: State): seq<Envelope> {
    if s.durable > |w.log| then []
    else
      var first := CountUpTo(w.log[..s.durable], LastSeq(s.sent));
      w.log[first..if first + PAGE_LIMIT + 1 <= s.durable then first + PAGE_LIMIT + 1 else s.durable]
  }

  predicate CanPublish(w: World, s: State) {
    && s.published < |w.stream| && s.durable <= |w.log|
    && (w.stream[s.published].runId == w.runId ==> w.stream[s.published] in w.log[..s.durable])
  }

  predicate CanRead(w: World, s: State, size: nat) {
    && s.mode == CatchingUp && s.durable <= |w.log|
    && size <= |Eligible(w, s)| && size <= PAGE_LIMIT && (size == 0 ==> Eligible(w, s) == [])
  }

  function ReadOne(w: World, s: State, size: nat): State
    requires CanRead(w, s, size)
  {
    var sent := s.sent + UpToTerminal(Eligible(w, s)[..size]);
    s.(sent := sent, mode := if !Over(sent) && size < |Eligible(w, s)| then CatchingUp else Listening)
  }

  /** An overrun receiver is moved to the oldest retained entry. */
  function ReceiveOne(w: World, s: State): State
    requires s.cursor < s.published <= |w.stream|
  {
    if s.published - s.cursor > w.capacity
    then s.(cursor := s.published - w.capacity, mode := CatchingUp)
    else s.(cursor := s.cursor + 1, mode := Handling(w.stream[s.cursor]))
  }

  function Apply(w: World, s: State, step: Step): State {
    match step
    case Append(count) => if s.durable <= count <= |w.log| then s.(durable := count) else s
    case Publish => if CanPublish(w, s) then s.(published := s.published + 1) else s
    case Receive => if Idle(s) && s.cursor < s.published <= |w.stream| then ReceiveOne(w, s) else s
    case Close => if Idle(s) && w.closes && s.cursor == |w.stream| then s.(mode := Shut) else s
    case Project => if s.mode.Handling? then s.(sent := Deliver(w, s.sent, s.mode.envelope), mode := Listening) else s
    case ReadPage(size) => if CanRead(w, s, size) then ReadOne(w, s, size) else s
    case ReadFails => if s.mode == CatchingUp && !w.readable then s.(mode := Listening, readFailed := true) else s
  }

  function Run(w: World, s: State, steps: seq<Step>): State {
    if steps == [] then s else Apply(w, Run(w, s, steps[..|steps| - 1]), steps[|steps| - 1])
  }

  lemma RunStep(w: World, s: State, steps: seq<Step>, step: Step)
    ensures Run(w, s, steps + [step]) == Apply(w, Run(w, s, steps), step)
  {
    assert (steps + [step])[..|steps|] == steps;
  }

  // ----- strictly increasing, whatever the order

  /** What is sent are events of the log, with increasing numbers; only the last may be terminal. */
  ghost predicate Increasing(log: seq<Envelope>, sent: seq<Envelope>) {
    && (forall i, j :: 0 <= i < j < |sent| ==> sent[i].seqNo < sent[j].seqNo)
    && (forall i :: 0 <= i < |sent| ==> sent[i] in log)
    && (forall i :: 0 <= i < |sent| - 1 ==> TerminalReason(sent[i].event) == None)
  }

  /** Positions are in range, and what was broadcast had been appended. */
  ghost predicate InRange(w: World, s: State) {
    && s.cursor <= s.published <= |w.stream| && s.durable <= |w.log|
    && (forall i :: 0 <= i < s.published && w.stream[i].runId == w.runId ==> w.stream[i] in w.log[..s.durable])
    && (s.mode.Handling? ==> s.cursor >= 1 && s.mode.envelope == w.stream[s.cursor - 1])
    && (s.mode.Handling? || s.mode.CatchingUp? ==> !Over(s.sent))
    && (w.readable ==> !s.readFailed)
  }

  ghost predicate Inv(w: World, s: State) {
    InRange(w, s) && Increasing(w.log, s.sent)
  }

  lemma SendOne(log: seq<Envelope>, sent: seq<Envelope>, e: Envelope)
    requires Increasing(log, sent) && !Over(sent) && e in log && e.seqNo > LastSeq(sent)
    ensures Increasing(log, sent + [e])
  {
  }

  /** The events of a page come after what was sent, in order. */
  lemma EligibleFollows(w: World, s: State)
    requires Sound(w) && InRange(w, s)
    ensures var e := Eligible(w, s);
      && (forall i :: 0 <= i < |e| ==> e[i] in w.log && e[i].seqNo > LastSeq(s.sent))
      && (forall i, j :: 0 <= i < j < |e| ==> e[i].seqNo < e[j].seqNo)
  {
    hide CountUpTo;
    var first, e := CountUpTo(w.log[..s.durable], LastSeq(s.sent)), Eligible(w, s);
    assert forall i :: 0 <= i < |e| ==> e[i] == w.log[first + i];
    if e != [] {
      assert w.log[..s.durable][first] == w.log[first];
    }
  }

  /** Events of the log, in order, newer than what was sent. */
  ghost predicate Later(log: seq<Envelope>, sent: seq<Envelope>, events: seq<Envelope>) {
    && (forall i :: 0 <= i < |events| ==> events[i] in log && events[i].seqNo > LastSeq(sent))
    && (forall i, j :: 0 <= i < j < |events| ==> events[i].seqNo < events[j].seqNo)
  }

  lemma LaterTail(log: seq<Envelope>, sent: seq<Envelope>, events: seq<Envelope>)
    requires Later(log, sent, events) && events != []
    ensures Later(log, sent + [events[0]], events[1..])
    ensures events[0] in log && events[0].seqNo > LastSeq(sent)
  {
    assert LastSeq(sent + [events[0]]) == events[0].seqNo;
    assert forall i :: 0 <= i < |events| - 1 ==> events[1..][i] == events[i + 1];
  }

  /** Sending a list of later events up to its first terminal one. */
  lemma {:induction false} SendMany(log: seq<Envelope>, sent: seq<Envelope>, events: seq<Envelope>)
    requires Increasing(log, sent) && !Over(sent) && Later(log, sent, events)
    ensures Increasing(log, sent + UpToTerminal(events))
    ensures !Over(sent + UpToTerminal(events)) ==> UpToTerminal(events) == events
    decreases |events|
  {
    hide Increasing, Later, LastSeq, Over, TerminalReason, UpToTerminal;
    Heads(sent, events);
    if events != [] {
      LaterTail(log, sent, events);
      SendOne(log, sent, events[0]);
      if TerminalReason(events[0].event) == None {
        SendMany(log, sent + [events[0]], events[1..]);
        assert events == [events[0]] + events[1..];
      }
    }
  }

  lemma Heads(sent: seq<Envelope>, events: seq<Envelope>)
    ensures events == [] ==> sent + UpToTerminal(events) == sent && UpToTerminal(events) == events
    ensures events != [] && TerminalReason(events[0].event).Some? ==>
      UpToTerminal(events) == [events[0]] && Over(sent + [events[0]])
    ensures events != [] && TerminalReason(events[0].event) == None ==>
      && UpToTerminal(events) == [events[0]] + UpToTerminal(events[1..])
      && sent + UpToTerminal(events) == sent + [events[0]] + UpToTerminal(events[1..])
      && !Over(sent + [events[0]])
  {
    hide TerminalReason;
    if events != [] {
      Associative(sent, events[0], UpToTerminal(events[1..]));
    }
  }

  /** Where the first terminal event is, or that there is none. */
  lemma {:induction false} UpToFirst(events: seq<Envelope>, i: nat)
    requires i <= |events| && NoTerminal(events[..i])
    ensures i == |events| ==> UpToTerminal(events) == events
    ensures i < |events| && TerminalReason(events[i].event).Some? ==> UpToTerminal(events) == events[..i] + [events[i]]
    decreases i
  {
    hide TerminalReason;
    if i > 0 {
      assert events[..i][0] == events[0] && events[1..][..i - 1] == events[..i][1..];
      UpToFirst(events[1..], i - 1);
      assert events == [events[0]] + events[1..];
    }
  }

  lemma PrefixOneMore<T>(p: seq<T>, q: seq<T>, i: nat)
    requires i < |q|
    ensures p + q[..i] + [q[i]] == p + q[..i + 1] == p + (q[..i] + [q[i]])
  {
  }

  lemma LastOf(sent: seq<Envelope>, e: Envelope)
    ensures LastSeq(sent + [e]) == e.seqNo && (sent + [e])[|sent|] == e
    ensures Over(sent + [e]) <==> TerminalReason(e.event).Some?
  {
  }

  lemma Associative<T>(p: seq<T>, x: T, q: seq<T>)
    ensures p + ([x] + q) == p + [x] + q
  {
  }

  lemma ReadKeepsInv(w: World, s: State, size: nat)
    requires Sound(w) && Inv(w, s) && CanRead(w, s, size)
    ensures Inv(w, ReadOne(w, s, size))
  {
    hide Sound, Increasing, Eligible, Over, LastSeq;
    LaterEligible(w, s, size);
    SendMany(w.log, s.sent, Eligible(w, s)[..size]);
  }

  lemma ApplyKeepsInv(w: World, s: State, step: Step)
    requires Sound(w) && Inv(w, s)
    ensures Inv(w, Apply(w, s, step))
  {
    hide Increasing, ReadOne, CanRead, Eligible, Over;
    match step
    case ReadPage(size) => if CanRead(w, s, size) { ReadKeepsInv(w, s, size); }
    case Project =>
      if s.mode.Handling? && s.mode.envelope.runId == w.runId && s.mode.envelope.seqNo > LastSeq(s.sent) {
        SendOne(w.log, s.sent, s.mode.envelope);
      }
    case _ =>
  }

  lemma InitialInv(w: World)
    requires Sound(w)
    ensures Inv(w, INITIAL)
  {
  }

  /** Over every interleaving the numbers sent strictly increase, so nothing is sent twice, and
      nothing is sent after the first terminal event. */
  lemma {:induction false} RunKeepsInv(w: World, steps: seq<Step>)
    requires Sound(w)
    ensures Inv(w, Run(w, INITIAL, steps))
  {
    hide Inv, Apply, Sound;
    InitialInv(w);
    if steps != [] {
      var front := steps[..|steps| - 1];
      RunKeepsInv(w, front);
      ApplyKeepsInv(w, Run(w, INITIAL, front), steps[|steps| - 1]);
    }
  }

  // ----- gap-free, in log order

  /** Before entry `n` no terminal event of the run was broadcast. */
  ghost predicate NoTerminalBefore(w: World, n: nat) {
    forall k :: 0 <= k < n && k < |w.stream| && w.stream[k].runId == w.runId ==>
      TerminalReason(w.stream[k].event) == None
  }

  /** No event of the run enters the ring before its predecessor in the log. */
  ghost predicate InOrderAt(w: World, i: nat) {
    i < |w.stream| ==>
      forall j :: 1 <= j < |w.log| && w.stream[i] == w.log[j] ==> w.log[j - 1] in w.stream[..i]
  }

  /** Up to its first terminal event the run's events reach the ring in log order. */
  ghost predicate InLogOrder(w: World) {
    forall i :: 0 <= i < |w.stream| && NoTerminalBefore(w, i) ==> InOrderAt(w, i)
  }

  /** How many of the broadcasts the receiver is done with. */
  function Handled(s: State): int {
    if s.mode.Handling? then s.cursor - 1 else s.cursor
  }

  /** Nothing is missing: what was sent is a prefix of the log, and holds all that was received. */
  ghost predicate GapFree(w: World, s: State) {
    && s.durable <= |w.log| && s.sent <= w.log[..s.durable]
    && (s.mode != CatchingUp && !Over(s.sent) ==>
          forall i :: 0 <= i < Handled(s) && i < |w.stream| && w.stream[i].runId == w.runId ==> w.stream[i] in s.sent)
  }

  /** While nothing is missing, the log up to the last number sent is exactly what was sent. */
  lemma SentCount(log: seq<Envelope>, durable: nat, sent: seq<Envelope>)
    requires Ordered(log) && durable <= |log| && sent <= log[..durable]
    ensures CountUpTo(log[..durable], LastSeq(sent)) == |sent|
  {
    assert forall i :: 0 <= i < |sent| ==> log[i] == sent[i];
    CountIs(log[..durable], LastSeq(sent), |sent|);
  }

  lemma {:induction false} CountIs(log: seq<Envelope>, seqNo: nat, n: nat)
    requires n <= |log|
    requires forall i :: 0 <= i < n ==> log[i].seqNo <= seqNo
    requires n < |log| ==> log[n].seqNo > seqNo
    ensures CountUpTo(log, seqNo) == n
  {
    if n > 0 {
      CountIs(log[1..], seqNo, n - 1);
    }
  }

  /** While nothing is missing, a page continues what was sent; the last page reaches the end. */
  lemma PageContinues(w: World, s: State, size: nat)
    requires Sound(w) && Inv(w, s) && GapFree(w, s) && CanRead(w, s, size)
    ensures GapFree(w, ReadOne(w, s, size))
  {
    hide CountUpTo, Ordered, Over, Increasing, UpToTerminal, Later;
    var e := Eligible(w, s);
    SentCount(w.log, s.durable, s.sent);
    LaterEligible(w, s, size);
    SendMany(w.log, s.sent, e[..size]);
    assert s.sent + e[..size] <= w.log[..s.durable];
    if size == |e| {
      assert e[..size] == e && s.sent + e == w.log[..s.durable];
    }
  }

  lemma LaterEligible(w: World, s: State, size: nat)
    requires Sound(w) && InRange(w, s) && size <= |Eligible(w, s)|
    ensures Later(w.log, s.sent, Eligible(w, s)[..size])
  {
    hide Sound, InRange, Eligible, LastSeq;
    EligibleFollows(w, s);
  }

  /** An event whose predecessor was sent is the next of the log, or was sent. */
  lemma NextOrSent(log: seq<Envelope>, sent: seq<Envelope>, j: nat)
    requires Ordered(log) && sent <= log && j < |log| && (j > 0 ==> log[j - 1] in sent)
    ensures j == |sent| ==> log[j].seqNo > LastSeq(sent) && sent + [log[j]] <= log
    ensures j != |sent| ==> log[j] in sent && log[j].seqNo <= LastSeq(sent)
  {
    assert forall i :: 0 <= i < |sent| ==> sent[i] == log[i];
    if j > 0 {
      var p :| 0 <= p < |sent| && sent[p] == log[j - 1];
      assert p == j - 1;
    }
    if j < |sent| {
      assert log[j] == sent[j];
    }
  }

  /** The next live event, when its predecessor was received, is the next of the log or was sent. */
  lemma LiveContinues(w: World, s: State)
    requires Sound(w) && Inv(w, s) && GapFree(w, s) && s.mode.Handling?
    requires InOrderAt(w, s.cursor - 1) && s.mode.envelope.runId == w.runId
    ensures Deliver(w, s.sent, s.mode.envelope) <= w.log[..s.durable]
    ensures s.mode.envelope in Deliver(w, s.sent, s.mode.envelope)
  {
    hide Increasing, Ordered, LastSeq;
    var e := s.mode.envelope;
    var prefix := w.log[..s.durable];
    assert e in prefix;
    var j: nat :| j < |prefix| && prefix[j] == e;
    if j > 0 {
      PredecessorSent(w, s, j);
    }
    NextOrSent(w.log, s.sent, j);
  }

  lemma PredecessorSent(w: World, s: State, j: nat)
    requires Sound(w) && Inv(w, s) && GapFree(w, s) && s.mode.Handling?
    requires InOrderAt(w, s.cursor - 1) && 1 <= j < |w.log| && w.log[j] == s.mode.envelope
    ensures w.log[j - 1] in s.sent
  {
    hide Increasing, Ordered;
    var received := w.stream[..s.cursor - 1];
    assert w.log[j - 1] in received;
    var k :| 0 <= k < |received| && received[k] == w.log[j - 1];
    assert w.stream[k] == w.log[j - 1] && w.stream[k].runId == w.runId;
  }

  /** What was sent without a terminal event shows that none was received. */
  lemma NothingTerminalReceived(w: World, s: State)
    requires Inv(w, s) && GapFree(w, s) && s.mode.Handling?
    ensures NoTerminalBefore(w, s.cursor - 1)
  {
  }

  lemma ApplyKeepsGapFree(w: World, s: State, step: Step)
    requires Sound(w) && InLogOrder(w) && Inv(w, s) && GapFree(w, s)
    requires !Apply(w, s, step).readFailed
    ensures Inv(w, Apply(w, s, step)) && GapFree(w, Apply(w, s, step))
  {
    hide Sound, Increasing, ReadOne, CanRead, Eligible, InOrderAt;
    ApplyKeepsInv(w, s, step);
    match step
    case ReadPage(size) => if CanRead(w, s, size) { PageContinues(w, s, size); }
    case Project =>
      if s.mode.Handling? {
        NothingTerminalReceived(w, s);
        if s.mode.envelope.runId == w.runId {
          LiveContinues(w, s);
        }
      }
    case _ =>
  }

  lemma FailureStays(w: World, s: State, step: Step)
    ensures s.readFailed ==> Apply(w, s, step).readFailed
  {
  }

  /** In log order, and while the log can be read, what is sent is a gap-free prefix. */
  lemma {:induction false} GapFreeInOrder(w: World, steps: seq<Step>)
    requires Sound(w) && InLogOrder(w) && !Run(w, INITIAL, steps).readFailed
    ensures Inv(w, Run(w, INITIAL, steps)) && GapFree(w, Run(w, INITIAL, steps))
  {
    hide Inv, Apply, Sound, InLogOrder, GapFree;
    if steps == [] {
      InitialInv(w);
      InitialGapFree(w);
    } else {
      var front := steps[..|steps| - 1];
      var s := Run(w, INITIAL, front);
      FailureStays(w, s, steps[|steps| - 1]);
      GapFreeInOrder(w, front);
      ApplyKeepsGapFree(w, s, steps[|steps| - 1]);
    }
  }

  lemma InitialGapFree(w: World)
    requires Inv(w, INITIAL)
    ensures GapFree(w, INITIAL)
  {
  }

  /** A subscriber that takes each of the first `n` broadcasts as it comes. */
  function LiveSteps(w: World, n: nat): seq<Step> {
    if n == 0 then [Append(|w.log|)] else LiveSteps(w, n - 1) + [Publish, Receive, Project]
  }

  lemma LiveOneMore(w: World, n: nat)
    requires Sound(w) && n < |w.stream|
    requires var s := Run(w, INITIAL, LiveSteps(w, n));
      s.published == n == s.cursor && s.durable == |w.log| && Idle(s)
    ensures var s := Run(w, INITIAL, LiveSteps(w, n));
      Run(w, INITIAL, LiveSteps(w, n + 1))
        == s.(published := n + 1, cursor := n + 1, sent := Deliver(w, s.sent, w.stream[n]))
  {
    hide Run;
    var steps := LiveSteps(w, n);
    RunStep(w, INITIAL, steps, Publish);
    RunStep(w, INITIAL, steps + [Publish], Receive);
    RunStep(w, INITIAL, steps + [Publish] + [Receive], Project);
    assert LiveSteps(w, n + 1) == steps + [Publish] + [Receive] + [Project];
    assert w.log[..|w.log|] == w.log;
  }

  /** Up to the first event out of order such a subscriber has sent what it received. */
  lemma {:induction false} LivePrefix(w: World, n: nat)
    requires Sound(w) && n <= |w.stream| && NoTerminalBefore(w, n)
    requires forall i: nat :: i < n ==> InOrderAt(w, i)
    ensures var s := Run(w, INITIAL, LiveSteps(w, n));
      && s.published == n == s.cursor && s.durable == |w.log| && Idle(s) && !s.readFailed
      && Inv(w, s) && GapFree(w, s) && forall e :: e in s.sent ==> e in w.stream[..n]
  {
    hide InOrderAt, Sound, Inv, GapFree, Run, Deliver;
    RunKeepsInv(w, LiveSteps(w, n));
    if n == 0 {
      LiveStart(w);
    } else {
      LivePrefix(w, n - 1);
      LiveOneMore(w, n - 1);
      LiveSends(w, Run(w, INITIAL, LiveSteps(w, n - 1)), n - 1);
    }
  }

  lemma LiveStart(w: World)
    requires Sound(w)
    ensures Run(w, INITIAL, LiveSteps(w, 0)) == INITIAL.(durable := |w.log|)
    ensures GapFree(w, INITIAL.(durable := |w.log|))
  {
    RunStep(w, INITIAL, [], Append(|w.log|));
    assert [] + [Append(|w.log|)] == LiveSteps(w, 0);
  }

  lemma LiveSends(w: World, s: State, n: nat)
    requires Sound(w) && n < |w.stream| && InOrderAt(w, n) && NoTerminalBefore(w, n + 1)
    requires s.published == n == s.cursor && s.durable == |w.log| && Idle(s)
    requires Inv(w, s) && GapFree(w, s) && forall e :: e in s.sent ==> e in w.stream[..n]
    ensures var next := s.(published := n + 1, cursor := n + 1, sent := Deliver(w, s.sent, w.stream[n]));
      InRange(w, next) && Idle(next) && GapFree(w, next) && forall e :: e in next.sent ==> e in w.stream[..n + 1]
  {
    hide InOrderAt, Increasing, Ordered;
    var received := s.(published := n + 1, cursor := n + 1, mode := Handling(w.stream[n]));
    assert w.log[..|w.log|] == w.log && w.stream[..n + 1] == w.stream[..n] + [w.stream[n]];
    if w.stream[n].runId == w.runId {
      LiveContinues(w, received);
    }
  }

  /** An event whose predecessor was not sent leaves a gap. */
  lemma NotNext(log: seq<Envelope>, sent: seq<Envelope>, j: nat)
    requires Ordered(log) && sent <= log && 1 <= j < |log| && log[j - 1] !in sent
    ensures log[j].seqNo > LastSeq(sent) && !(sent + [log[j]] <= log)
  {
    assert forall p :: 0 <= p < |sent| ==> log[p] == sent[p] && sent[p] in sent;
    if sent != [] {
      assert sent[|sent| - 1] == log[|sent| - 1];
    }
    assert (sent + [log[j]])[|sent|] == log[j];
    assert log[|sent|].seqNo < log[j].seqNo;
  }

  /** The first event that enters the ring before its predecessor is sent without it. */
  lemma GapAppears(w: World, n: nat)
    requires Sound(w) && n < |w.stream| && NoTerminalBefore(w, n) && !InOrderAt(w, n)
    requires forall i: nat :: i < n ==> InOrderAt(w, i)
    ensures var s := Run(w, INITIAL, LiveSteps(w, n + 1)); !s.readFailed && !(s.sent <= w.log)
  {
    hide Increasing, Run, LiveSteps, Ordered, NoTerminalBefore;
    LivePrefix(w, n);
    LiveOneMore(w, n);
    var s := Run(w, INITIAL, LiveSteps(w, n));
    var j: nat :| 1 <= j < |w.log| && w.stream[n] == w.log[j] && w.log[j - 1] !in w.stream[..n];
    NotNext(w.log, s.sent, j);
  }

  lemma FirstOutOfOrder(w: World, n: nat) returns (first: nat)
    requires n < |w.stream| && NoTerminalBefore(w, n) && !InOrderAt(w, n)
    ensures first < |w.stream| && NoTerminalBefore(w, first) && !InOrderAt(w, first)
    ensures forall i: nat :: i < first ==> InOrderAt(w, i)
    decreases n
  {
    hide InOrderAt;
    if i: nat :| i < n && !InOrderAt(w, i) {
      first := FirstOutOfOrder(w, i);
    } else {
      first := n;
    }
  }

  /**
    While the log can be read, what is sent is a gap-free prefix of the log in every interleaving
    exactly when the run's events reach the ring in log order up to the first terminal one.
   */
  lemma GapFreeExactly(w: World)
    requires Sound(w)
    ensures (forall steps :: !Run(w, INITIAL, steps).readFailed ==> Run(w, INITIAL, steps).sent <= w.log)
       <==> InLogOrder(w)
  {
    hide Sound, InOrderAt, Run, NoTerminalBefore;
    if InLogOrder(w) {
      forall steps | !Run(w, INITIAL, steps).readFailed
        ensures Run(w, INITIAL, steps).sent <= w.log
      {
        GapFreeInOrder(w, steps);
      }
    } else {
      var n :| 0 <= n < |w.stream| && NoTerminalBefore(w, n) && !InOrderAt(w, n);
      var first := FirstOutOfOrder(w, n);
      GapAppears(w, first);
    }
  }

  lemma SentStays(w: World, s: State, step: Step)
    requires Inv(w, s)
    ensures s.sent <= Apply(w, s, step).sent
  {
    hide Increasing, Eligible, UpToTerminal;
  }

  /** An event overtaken by a later one is never sent, whatever comes after. */
  lemma {:induction false} OvertakenForEver(w: World, steps: seq<Step>, n: nat, e: Envelope)
    requires Sound(w) && n <= |steps| && e.seqNo >= 1
    requires e !in Run(w, INITIAL, steps[..n]).sent && e.seqNo <= LastSeq(Run(w, INITIAL, steps[..n]).sent)
    ensures e !in Run(w, INITIAL, steps).sent && e.seqNo <= LastSeq(Run(w, INITIAL, steps).sent)
    decreases |steps|
  {
    hide Sound, InRange, Increasing, Apply, Run, LastSeq;
    if n == |steps| {
      assert steps[..n] == steps;
    } else {
      var last := |steps| - 1;
      assert steps[..last][..n] == steps[..n] && steps == steps[..last] + [steps[last]];
      OvertakenForEver(w, steps[..last], n, e);
      var s := Run(w, INITIAL, steps[..last]);
      RunStep(w, INITIAL, steps[..last], steps[last]);
      RunKeepsInv(w, steps[..last]);
      RunKeepsInv(w, steps);
      SentStays(w, s, steps[last]);
      StaysOvertaken(w, s.sent, Run(w, INITIAL, steps).sent, e);
    }
  }

  lemma StaysOvertaken(w: World, sent: seq<Envelope>, more: seq<Envelope>, e: Envelope)
    requires Increasing(w.log, more) && sent <= more && e !in sent && e.seqNo <= LastSeq(sent)
    requires e.seqNo >= 1
    ensures e !in more && e.seqNo <= LastSeq(more)
  {
    if sent != [] {
      assert more[|sent| - 1] == sent[|sent| - 1];
      assert forall i :: |sent| <= i < |more| ==> more[i].seqNo > e.seqNo;
    }
  }

  /** The approval event n is committed, the run appends n + 1, and n + 1 is broadcast first: the
      subscriber sends n + 1 and never n, with no overrun and no failed read. */
  lemma ApprovalOvertaken(runId: string, steps: seq<Step>)
    ensures var approval := Envelope(runId, 1, Progress("approval_resolved"));
      var next := Envelope(runId, 2, Progress("tool_started"));
      var w := World([approval, next], [next, approval], runId, 2, false, true);
      var live := [Append(2), Publish, Receive, Project];
      && Sound(w) && !InLogOrder(w)
      && Run(w, INITIAL, live).sent == [next]
      && approval !in Run(w, INITIAL, live + steps).sent
  {
    var approval := Envelope(runId, 1, Progress("approval_resolved"));
    var next := Envelope(runId, 2, Progress("tool_started"));
    var w := World([approval, next], [next, approval], runId, 2, false, true);
    var live := [Append(2), Publish, Receive, Project];
    assert w.stream[0] == w.log[1] && w.log[0] !in w.stream[..0];
    assert !InOrderAt(w, 0) && NoTerminalBefore(w, 0);
    LiveStart(w);
    LiveOneMore(w, 0);
    assert LiveSteps(w, 0) == [Append(2)] && LiveSteps(w, 1) == [Append(2)] + [Publish, Receive, Project] == live;
    assert (live + steps)[..4] == live;
    OvertakenForEver(w, live + steps, 4, approval);
  }

  // ----- the end of the ring

  /**
    The ring closes only when its last sender goes, and the adapter's own client holds one. When
    nothing more is broadcast before the run has ended, the prompt waits for ever.
   */
  lemma {:induction false} WaitsForEver(w: World, s: State, steps: seq<Step>)
    requires !w.closes && s.cursor == s.published == |w.stream| && Idle(s)
    ensures var f := Run(w, s, steps); f.sent == s.sent && Idle(f) && f.cursor == f.published == |w.stream|
  {
    if steps != [] {
      WaitsForEver(w, s, steps[..|steps| - 1]);
    }
  }

  /** Nothing more is to come, and the prompt goes on listening. */
  predicate Stuck(w: World, s: State) {
    Idle(s) && s.cursor == s.published == |w.stream|
  }

  /** Entry `i` ends the run, and no broadcast of the run before it has its number or a later one. */
  ghost predicate EndsAt(w: World, i: nat) {
    && i < |w.stream| && w.stream[i].runId == w.runId && TerminalReason(w.stream[i].event).Some?
    && forall k :: 0 <= k < i && w.stream[k].runId == w.runId ==> w.stream[k].seqNo < w.stream[i].seqNo
  }

  ghost predicate EndsBroadcast(w: World) {
    exists i :: EndsAt(w, i)
  }

  /** What was received is numbered at most as what was sent last. */
  ghost predicate NoneNewer(w: World, n: nat, sent: seq<Envelope>) {
    forall k :: 0 <= k < n && k < |w.stream| && w.stream[k].runId == w.runId ==> w.stream[k].seqNo <= LastSeq(sent)
  }

  /** A subscriber that takes each broadcast as it comes goes on while none of them ends the run. */
  lemma {:induction false} LiveGoesOn(w: World, n: nat)
    requires Sound(w) && n <= |w.stream| && forall i: nat :: i < n ==> !EndsAt(w, i)
    ensures var s := Run(w, INITIAL, LiveSteps(w, n));
      s.published == n == s.cursor && s.durable == |w.log| && Idle(s) && !s.readFailed && NoneNewer(w, n, s.sent)
  {
    hide Sound, EndsAt, Run, Deliver, NoneNewer;
    if n == 0 {
      LiveStart(w);
      assert NoneNewer(w, 0, []) by { NoneReceived(w); }
    } else {
      LiveGoesOn(w, n - 1);
      LiveOneMore(w, n - 1);
      TakesOne(w, Run(w, INITIAL, LiveSteps(w, n - 1)).sent, n - 1);
    }
  }

  lemma NoneReceived(w: World)
    ensures NoneNewer(w, 0, [])
  {
  }

  lemma TakesOne(w: World, sent: seq<Envelope>, n: nat)
    requires n < |w.stream| && !Over(sent) && NoneNewer(w, n, sent) && !EndsAt(w, n)
    ensures var more := Deliver(w, sent, w.stream[n]); !Over(more) && NoneNewer(w, n + 1, more)
  {
  }

  /** While the run has not ended, its end is still to come. */
  ghost predicate Before(w: World, i: nat, s: State) {
    !s.readFailed && !Over(s.sent) && i < |w.stream| ==>
      LastSeq(s.sent) < w.stream[i].seqNo && (s.mode != CatchingUp ==> Handled(s) <= i)
  }

  /** An event of the log that is not in a stretch which starts before it comes behind the stretch. */
  lemma BehindStretch(log: seq<Envelope>, first: nat, size: nat, j: nat)
    requires Ordered(log) && first <= j < |log| && first + size <= |log|
    requires forall k :: first <= k < first + size ==> log[k] != log[j]
    ensures forall k :: first <= k < first + size ==> log[k].seqNo < log[j].seqNo
    ensures log[j] !in log[..first + size]
  {
  }

  /** A page without a terminal event ends before the run's end, and the last page shows that the
      end has not been appended. */
  lemma PageIsEarlier(w: World, s: State, end: Envelope, size: nat)
    requires Sound(w) && InRange(w, s) && CanRead(w, s, size)
    requires end in w.log && LastSeq(s.sent) < end.seqNo && TerminalReason(end.event).Some?
    requires NoTerminal(Eligible(w, s)[..size])
    ensures forall k :: 0 <= k < size ==> Eligible(w, s)[k].seqNo < end.seqNo
    ensures size == |Eligible(w, s)| ==> end !in w.log[..s.durable]
  {
    hide CountUpTo, TerminalReason, LastSeq, Ordered;
    var first, e := CountUpTo(w.log[..s.durable], LastSeq(s.sent)), Eligible(w, s);
    var j: nat :| j < |w.log| && w.log[j] == end;
    assert forall k :: 0 <= k < first ==> w.log[..s.durable][k] == w.log[k];
    assert forall k :: 0 <= k < size ==> e[..size][k] == e[k] == w.log[first + k];
    assert forall k :: first <= k < first + size ==> w.log[k] == e[..size][k - first];
    BehindStretch(w.log, first, size, j);
  }

  lemma NoneTerminal(log: seq<Envelope>, sent: seq<Envelope>, events: seq<Envelope>)
    requires Increasing(log, sent + events) && !Over(sent + events)
    ensures NoTerminal(events)
  {
    assert forall k :: 0 <= k < |events| ==> (sent + events)[|sent| + k] == events[k];
  }

  /** A page that holds the run's end ends the prompt; the last page holds all that was broadcast. */
  lemma PageBefore(w: World, i: nat, s: State, size: nat)
    requires Sound(w) && Inv(w, s) && EndsAt(w, i) && CanRead(w, s, size) && LastSeq(s.sent) < w.stream[i].seqNo
    ensures Before(w, i, ReadOne(w, s, size))
  {
    hide CountUpTo, Ordered, Over, Increasing, UpToTerminal, Later, LastSeq, TerminalReason, Eligible;
    var (e, page, end) := (Eligible(w, s), Eligible(w, s)[..size], w.stream[i]);
    LaterEligible(w, s, size);
    SendMany(w.log, s.sent, page);
    if !Over(s.sent + UpToTerminal(page)) {
      NoneTerminal(w.log, s.sent, page);
      PageIsEarlier(w, s, end, size);
      LastOfPage(s.sent, page);
    }
  }

  lemma ReadsInCatchUp(w: World, s: State, size: nat)
    requires CanRead(w, s, size)
    ensures s.mode == CatchingUp && ReadOne(w, s, size).readFailed == s.readFailed
  {
  }

  lemma ApplyKeepsBefore(w: World, i: nat, s: State, step: Step)
    requires Sound(w) && Inv(w, s) && EndsAt(w, i) && Before(w, i, s)
    ensures Before(w, i, Apply(w, s, step))
  {
    hide Increasing, ReadOne, CanRead, Eligible;
    match step
    case ReadPage(size) =>
      if CanRead(w, s, size) {
        ReadsInCatchUp(w, s, size);
        if !s.readFailed {
          PageBefore(w, i, s, size);
        }
      }
    case _ =>
  }

  /** In every interleaving, while the log can be read, the run's end has been sent or is to come. */
  lemma {:induction false} EndIsToCome(w: World, i: nat, steps: seq<Step>)
    requires Sound(w) && EndsAt(w, i)
    ensures Before(w, i, Run(w, INITIAL, steps))
  {
    hide Inv, Apply, Sound, EndsAt, Before;
    if steps == [] {
      StartsBefore(w, i);
    } else {
      var front := steps[..|steps| - 1];
      RunKeepsInv(w, front);
      EndIsToCome(w, i, front);
      ApplyKeepsBefore(w, i, Run(w, INITIAL, front), steps[|steps| - 1]);
    }
  }

  lemma StartsBefore(w: World, i: nat)
    requires Sound(w) && EndsAt(w, i)
    ensures Before(w, i, INITIAL)
  {
  }

  /**
    While the log can be read, no interleaving leaves the prompt waiting for ever exactly when the
    run's end is broadcast after nothing of the run but events with smaller numbers.
   */
  lemma NeverStuckExactly(w: World)
    requires Sound(w)
    ensures (forall steps :: !Run(w, INITIAL, steps).readFailed ==> !Stuck(w, Run(w, INITIAL, steps)))
       <==> EndsBroadcast(w)
  {
    hide Sound, EndsAt, Run;
    if EndsBroadcast(w) {
      var i: nat :| EndsAt(w, i);
      forall steps | !Run(w, INITIAL, steps).readFailed
        ensures !Stuck(w, Run(w, INITIAL, steps))
      {
        EndIsToCome(w, i, steps);
        EndInStream(w, i);
      }
    } else {
      LiveGoesOn(w, |w.stream|);
      assert Stuck(w, Run(w, INITIAL, LiveSteps(w, |w.stream|)));
    }
  }

  lemma EndInStream(w: World, i: nat)
    requires EndsAt(w, i)
    ensures i < |w.stream|
  {
  }

  // ----- the adapter

  /** How a prompt ends: with the run, with the ring, or not at all. */
  datatype End = RunEnded | RingClosed | NeverReturns

  /** A page of the first `durable` events after a sequence number. */
  ghost predicate PageOf(log: seq<Envelope>, durable: nat, after: nat, limit: nat, page: Page) {
    durable <= |log| &&
    var first, events := CountUpTo(log[..durable], after), page.events;
    && |events| <= limit && first + |events| <= durable && events == log[first..first + |events|]
    && (page.hasMore <==> first + |events| < durable)
    && (events == [] ==> first == durable)
    && page.nextCursor == if events == [] then None else Some(events[|events| - 1].seqNo)
  }

  class Connection {
    const w: World
    var published: nat
    var durable: nat
    var cursor: nat  // the receiver's position in the stream
    var sent: seq<Envelope>  // what has been projected to the client
    var mode: Mode
    ghost var readFailed: bool
    ghost var trace: seq<Step>  // every step so far, the world's included

    constructor (w: World)
      requires Sound(w)
      ensures Valid() && this.w == w && sent == [] && mode == Listening && !readFailed
    {
      this.w := w;
      published, durable, cursor, sent, mode, readFailed, trace := 0, 0, 0, [], Listening, false, [];
    }

    ghost function Abstract(): State
      reads this
    {
      State(published, durable, cursor, sent, mode, readFailed)
    }

    ghost predicate Valid()
      reads this
    {
      Sound(w) && Abstract() == Run(w, INITIAL, trace)
    }

    /** Time passes: other tasks append and broadcast. */
    method Elsewhere()
      requires Valid()
      modifies this`published, this`durable, this`trace
      ensures Valid() && published >= old(published) && durable >= old(durable)
    {
      hide Sound, Run;
      var rounds: int := *;
      for i := 0 to if rounds < 0 then 0 else rounds
        invariant Valid() && published >= old(published) && durable >= old(durable)
      {
        var appended: int := *;
        if durable <= appended <= |w.log| {
          RunStep(w, INITIAL, trace, Append(appended));
          durable, trace := appended, trace + [Append(appended)];
        } else if published < |w.stream| {
          Broadcast();
        }
      }
    }

    /** One more broadcast, after its event was appended. */
    method Broadcast()
      requires Valid() && published < |w.stream|
      modifies this`published, this`durable, this`trace
      ensures Valid() && published == old(published) + 1 && durable >= old(durable)
    {
      hide Run, Ordered;
      RunKeepsInv(w, trace);
      var e := w.stream[published];
      if e.runId == w.runId && e !in w.log[..durable] {
        IsAppended(w, e, durable);
        var needed := CountUpTo(w.log, e.seqNo);
        RunStep(w, INITIAL, trace, Append(needed));
        durable, trace := needed, trace + [Append(needed)];
      }
      RunStep(w, INITIAL, trace, Publish);
      published, trace := published + 1, trace + [Publish];
    }

    /** The broadcast receiver: an overrun receiver is moved to the oldest retained entry. */
    method Recv() returns (r: Received)
      requires Valid() && mode == Listening && !Over(sent)
      modifies this`published, this`durable, this`cursor, this`mode, this`trace
      ensures Valid() && published >= old(published) && durable >= old(durable)
      ensures r.Got? ==> old(cursor) < |w.stream| && r.envelope == w.stream[old(cursor)] && cursor == old(cursor) + 1
      ensures r.Got? ==> mode == Handling(r.envelope)
      ensures r.Lagged? ==> old(cursor) < cursor == published - w.capacity && mode == CatchingUp
      ensures r.Closed? ==> w.closes && cursor == |w.stream| && mode == Shut
      ensures r.Blocked? ==> !w.closes && cursor == published == |w.stream| && mode == Listening
    {
      hide Run;
      Elsewhere();
      RunKeepsInv(w, trace);
      if cursor == published {
        if published == |w.stream| {
          if !w.closes {
            return Blocked;
          }
          RunStep(w, INITIAL, trace, Close);
          mode, trace := Shut, trace + [Close];
          return Closed;
        }
        Broadcast();
      }
      RunStep(w, INITIAL, trace, Receive);
      trace := trace + [Receive];
      if published - cursor > w.capacity {
        cursor, mode := published - w.capacity, CatchingUp;
        return Lagged;
      }
      r := Got(w.stream[cursor]);
      cursor, mode := cursor + 1, Handling(w.stream[cursor]);
    }

    /** Projects a live event unless it belongs to another run or is not newer than what was sent. */
    method Live(envelope: Envelope, lastSeq0: nat) returns (reason: Option<string>, lastSeq: nat)
      requires Valid() && mode == Handling(envelope) && lastSeq0 == LastSeq(sent)
      modifies this`sent, this`mode, this`trace
      ensures Valid() && mode == Listening && lastSeq == LastSeq(sent)
      ensures sent ==
        if envelope.runId == w.runId && envelope.seqNo > lastSeq0 then old(sent) + [envelope] else old(sent)
      ensures if reason.Some? then Over(sent) && TerminalReason(sent[|sent| - 1].event) == reason else !Over(sent)
    {
      hide Run;
      RunKeepsInv(w, trace);
      RunStep(w, INITIAL, trace, Project);
      reason, lastSeq, mode, trace := None, lastSeq0, Listening, trace + [Project];
      if envelope.runId != w.runId {
        return;
      }
      if envelope.seqNo <= lastSeq {
        return;
      }
      lastSeq := envelope.seqNo;
      sent := sent + [envelope];
      reason := TerminalReason(envelope.event);
    }

    /**
      One page of the durable log after a sequence number; None when the read fails. A page may
      stop early to fit a frame, but then it says that there is more and where to go on.
     */
    method RunEvents(after: nat, limit: nat) returns (page: Option<Page>)
      requires Valid() && limit >= 1
      modifies this`published, this`durable, this`trace
      ensures Valid() && published >= old(published) && durable >= old(durable)
      ensures page.Some? ==> PageOf(w.log, durable, after, limit, page.value)
      ensures page == None ==> !w.readable
    {
      hide Ordered, Run, Sound, CountUpTo, Increasing;
      Elsewhere();
      RunKeepsInv(w, trace);
      var log := w.log[..durable];
      var first := CountUpTo(log, after);
      var end := if first + limit + 1 <= |log| then first + limit + 1 else |log|;
      var eligible := log[first..end];
      var fits: int := *;
      var count: nat := if |eligible| <= limit then |eligible| else limit;
      if (if w.readable then 1 else 0) <= fits < count {
        count := fits;
      }
      var failed: bool := *;
      if (failed && !w.readable) || (count == 0 && eligible != []) {
        return None;
      }
      var events := eligible[..count];
      SliceOfSlice(w.log, durable, first, end, count);
      page := Some(Page(events, if events == [] then None else Some(events[count - 1].seqNo), count < |eligible|));
    }

    /** Projects the events of a page up to the first terminal one. */
    method ProjectPage(page: Page, lastSeq0: nat) returns (reason: Option<string>, lastSeq: nat)
      requires Valid() && mode == CatchingUp
      requires lastSeq0 == LastSeq(sent) && PageOf(w.log, durable, lastSeq0, PAGE_LIMIT, page)
      modifies this`sent, this`mode, this`trace
      ensures Valid() && lastSeq == LastSeq(sent) && sent == old(sent) + UpToTerminal(page.events)
      ensures if reason.Some? then Over(sent) && TerminalReason(sent[|sent| - 1].event) == reason else !Over(sent)
      ensures reason == None ==> sent == old(sent) + page.events
      ensures mode == if reason == None && page.hasMore then CatchingUp else Listening
    {
      hide Run, Sound, Ordered, CountUpTo, PageOf, Eligible, UpToTerminal, Increasing;
      RunKeepsInv(w, trace);
      PageIsEligible(w, Abstract(), page);
      PageStep(w, Abstract(), page);
      RunStep(w, INITIAL, trace, ReadPage(|page.events|));
      trace := trace + [ReadPage(|page.events|)];
      lastSeq, reason := SendUpToTerminal(page.events, lastSeq0);
      mode := if reason == None && page.hasMore then CatchingUp else Listening;
    }

    method SendUpToTerminal(events: seq<Envelope>, lastSeq0: nat) returns (lastSeq: nat, reason: Option<string>)
      requires lastSeq0 == LastSeq(sent) && !Over(sent)
      modifies this`sent
      ensures lastSeq == LastSeq(sent) && sent == old(sent) + UpToTerminal(events)
      ensures if reason.Some? then Over(sent) && TerminalReason(sent[|sent| - 1].event) == reason else !Over(sent)
      ensures reason == None ==> sent == old(sent) + events
    {
      hide TerminalReason, UpToTerminal, LastSeq, Over;
      lastSeq, reason := lastSeq0, None;
      for i := 0 to |events|
        invariant sent == old(sent) + events[..i] && lastSeq == LastSeq(sent) && !Over(sent) && reason == None
        invariant NoTerminal(events[..i])
      {
        var envelope := events[i];
        UpToFirst(events, i);
        LastOf(sent, envelope);
        PrefixOneMore(old(sent), events, i);
        lastSeq := envelope.seqNo;
        sent := sent + [envelope];
        reason := TerminalReason(envelope.event);
        if reason.Some? {
          return;
        }
      }
      UpToFirst(events, |events|);
      assert events[..|events|] == events;
    }

    /**
      Pages through the log after what was sent last. What it sends is a stretch of the log from
      there; without a failed read it holds all that was durable at the call, unless the run ends.
     */
    method CatchUpRun(lastSeq0: nat) returns (reason: Option<string>, lastSeq: nat, ghost failed: bool)
      requires Valid() && mode == CatchingUp && lastSeq0 == LastSeq(sent)
      modifies this`published, this`durable, this`sent, this`mode, this`readFailed, this`trace
      ensures Valid() && mode == Listening && lastSeq == LastSeq(sent) && readFailed == (old(readFailed) || failed)
      ensures if reason.Some? then Over(sent) && TerminalReason(sent[|sent| - 1].event) == reason else !Over(sent)
      ensures Stretch(w.log, lastSeq0, old(sent), sent)
      ensures failed ==> !w.readable
      ensures !failed && reason == None ==> CountUpTo(w.log, lastSeq0) + |sent| - |old(sent)| >= old(durable)
    {
      hide Run, CountUpTo, PageOf, Eligible, UpToTerminal, Increasing, Ordered, Stretch, LastSeq, Over;
      RunKeepsInv(w, trace);
      lastSeq, failed := lastSeq0, false;
      var after := lastSeq;
      StretchStarts(w.log, lastSeq0, sent);
      while true
        invariant Valid() && mode == CatchingUp && after == lastSeq == LastSeq(sent) && !Over(sent)
        invariant readFailed == old(readFailed) && durable >= old(durable) && !failed
        invariant |sent| >= |old(sent)| && Stretch(w.log, lastSeq0, old(sent), sent)
        invariant CountUpTo(w.log, after) == CountUpTo(w.log, lastSeq0) + |sent| - |old(sent)|
        decreases |w.log| - CountUpTo(w.log, after)
      {
        var page := RunEvents(after, PAGE_LIMIT);
        if page == None {
          RunStep(w, INITIAL, trace, ReadFails);
          mode, readFailed, trace := Listening, true, trace + [ReadFails];
          failed := true;
          return None, lastSeq, failed;
        }
        ghost var before := sent;
        reason, lastSeq := ProjectPage(page.value, lastSeq);
        StretchPage(w.log, durable, lastSeq0, old(sent), before, page.value);
        if reason.Some? || !page.value.hasMore {
          return;
        }
        match page.value.nextCursor
        case None => return;
        case Some(next) => after := next;
      }
    }

    /**
      The prompt loop. For every interleaving of appending, broadcasting, eviction and overrun,
      what is sent has strictly increasing sequence numbers. If the run's events reach the ring in
      log order and every read of the log succeeds, it is a gap-free prefix of the log. It ends
      with the first terminal event sent, unless the ring closes first or stays silent for ever;
      neither happens when the run's end is broadcast after smaller numbers only.
     */
    method Prompt() returns (stopReason: string, ghost end: End)
      requires Valid() && sent == [] && mode == Listening
      modifies this`published, this`durable, this`cursor, this`sent, this`mode, this`readFailed, this`trace
      ensures Valid() && Increasing(w.log, sent)
      ensures w.readable ==> !readFailed
      ensures InLogOrder(w) && !readFailed ==> sent <= w.log
      ensures EndsBroadcast(w) && !readFailed ==> end == RunEnded
      ensures match end
        case RunEnded => Over(sent) && IsAnswerTo(sent[|sent| - 1].event, stopReason)
        case RingClosed => w.closes && !Over(sent) && stopReason == "refusal"
        case NeverReturns => !w.closes && Idle(Abstract()) && cursor == published == |w.stream|
    {
      hide Run, Sound, Increasing, Ordered, InLogOrder, EndsBroadcast, IsAnswerTo;
      var lastSeq: nat := 0;
      PromptSends();
      while true
        invariant Valid() && mode == Listening && !Over(sent) && lastSeq == LastSeq(sent)
        invariant cursor <= |w.stream|
        decreases |w.stream| - cursor
      {
        var received := Recv();
        var reason: Option<string>;
        match received {
          case Closed =>
            PromptSends();
            return "refusal", RingClosed;
          case Blocked =>
            PromptSends();
            return "", NeverReturns;
          case Lagged =>
            ghost var failed;
            reason, lastSeq, failed := CatchUpRun(lastSeq);
          case Got(envelope) =>
            reason, lastSeq := Live(envelope, lastSeq);
        }
        PromptSends();
        if reason.Some? {
          ReasonIsAnswer(sent[|sent| - 1].event);
          return reason.value, RunEnded;
        }
      }
    }

    /** What every interleaving keeps, said of the connection. */
    lemma PromptSends()
      requires Valid()
      ensures Increasing(w.log, sent) && cursor <= |w.stream| && (w.readable ==> !readFailed)
      ensures InLogOrder(w) && !readFailed ==> sent <= w.log
      ensures EndsBroadcast(w) && !readFailed && !Over(sent) && (mode == Listening || mode == Shut) ==>
        cursor < |w.stream|
    {
      hide Run, Sound, InLogOrder, EndsAt;
      RunKeepsInv(w, trace);
      if EndsBroadcast(w) {
        var i: nat :| EndsAt(w, i);
        EndIsToCome(w, i, trace);
        EndInStream(w, i);
      }
      if InLogOrder(w) && !readFailed {
        GapFreeInOrder(w, trace);
      }
    }
  }

  /** `sent` continues `before` with the events of the log after a sequence number, without a gap. */
  ghost predicate Stretch(log: seq<Envelope>, after: nat, before: seq<Envelope>, sent: seq<Envelope>) {
    |sent| >= |before| &&
    var first, count := CountUpTo(log, after), |sent| - |before|;
    first + count <= |log| && sent == before + log[first..first + count]
  }

  lemma StretchStarts(log: seq<Envelope>, after: nat, sent: seq<Envelope>)
    ensures Stretch(log, after, sent, sent)
  {
    hide CountUpTo;
  }

  lemma CountOfPrefix(log: seq<Envelope>, durable: nat, seqNo: nat)
    requires durable <= |log|
    ensures CountUpTo(log[..durable], seqNo) ==
      if CountUpTo(log, seqNo) < durable then CountUpTo(log, seqNo) else durable
  {
    hide CountUpTo;
    var n := CountUpTo(log, seqNo);
    CountIs(log[..durable], seqNo, if n < durable then n else durable);
  }

  /** A page continues a stretch; the last one takes it to the end of what is durable. */
  lemma StretchPage(log: seq<Envelope>, durable: nat, after: nat, before: seq<Envelope>, sent: seq<Envelope>,
    page: Page)
    requires Ordered(log) && Stretch(log, after, before, sent)
    requires CountUpTo(log, LastSeq(sent)) == CountUpTo(log, after) + |sent| - |before|
    requires PageOf(log, durable, LastSeq(sent), PAGE_LIMIT, page)
    ensures Stretch(log, after, before, sent + UpToTerminal(page.events))
    ensures var all := sent + page.events;
      && CountUpTo(log, LastSeq(all)) == CountUpTo(log, after) + |all| - |before|
      && (!page.hasMore ==> CountUpTo(log, LastSeq(all)) >= durable)
      && (page.hasMore ==>
          page.nextCursor == Some(LastSeq(all)) && CountUpTo(log, LastSeq(sent)) < CountUpTo(log, LastSeq(all)))
  {
    hide CountUpTo, UpToTerminal, Ordered, LastSeq, Stretch;
    PageMovesOn(log, durable, LastSeq(sent), page);
    LastOfPage(sent, page.events);
    var n, all := CountUpTo(log, LastSeq(sent)), sent + page.events;
    CountOfPrefix(log, durable, LastSeq(sent));
    StretchMore(log, n, after, before, sent, page.events, UpToTerminal(page.events));
    PageEnds(log, n, page.events);
    assert page.events == [] ==> all == sent;
  }

  lemma PageEnds(log: seq<Envelope>, n: nat, events: seq<Envelope>)
    requires Ordered(log) && n + |events| <= |log| && events == log[n..n + |events|]
    ensures events != [] ==> CountUpTo(log, events[|events| - 1].seqNo) == n + |events|
  {
    hide CountUpTo, Ordered;
    if events != [] {
      CountAt(log, n + |events| - 1);
    }
  }

  lemma LastOfPage(sent: seq<Envelope>, events: seq<Envelope>)
    ensures LastSeq(sent + events) == if events == [] then LastSeq(sent) else events[|events| - 1].seqNo
  {
    assert events == [] ==> sent + events == sent;
  }

  lemma StretchMore(log: seq<Envelope>, n: nat, after: nat, before: seq<Envelope>, sent: seq<Envelope>,
    events: seq<Envelope>, some: seq<Envelope>)
    requires Stretch(log, after, before, sent) && n == CountUpTo(log, after) + |sent| - |before|
    requires some <= events && (events != [] ==> n + |events| <= |log| && events == log[n..n + |events|])
    ensures Stretch(log, after, before, sent + some)
  {
    hide CountUpTo;
    var first := CountUpTo(log, after);
    if events != [] {
      SlicesJoin(log, first, n, |some|);
      assert log[n..n + |events|][..|some|] == some;
      assert log[n..n + |events|][..|some|] == log[n..n + |some|];
      assert before + (log[first..n] + some) == before + log[first..n] + some;
    } else {
      assert sent + some == sent;
    }
  }

  lemma SlicesJoin<T>(log: seq<T>, first: nat, n: nat, count: nat)
    requires first <= n && n + count <= |log|
    ensures log[first..n] + log[n..n + count] == log[first..n + count]
  {
  }

  /** As many events are numbered up to one of the log as lead to it. */
  lemma CountAt(log: seq<Envelope>, i: nat)
    requires Ordered(log) && i < |log|
    ensures CountUpTo(log, log[i].seqNo) == i + 1
  {
    hide CountUpTo;
    CountIs(log, log[i].seqNo, i + 1);
  }

  lemma IsAppended(w: World, e: Envelope, durable: nat)
    requires Sound(w) && e in w.log && durable <= |w.log| && e !in w.log[..durable]
    ensures durable <= CountUpTo(w.log, e.seqNo) && e in w.log[..CountUpTo(w.log, e.seqNo)]
  {
    hide CountUpTo;
    var j :| 0 <= j < |w.log| && w.log[j] == e;
    assert forall p :: 0 <= p < durable ==> w.log[p] == w.log[..durable][p] && w.log[..durable][p] in w.log[..durable];
    assert w.log[..CountUpTo(w.log, e.seqNo)][j] == e;
  }

  /** The page after what was sent is the eligible events, as many as it holds. */
  lemma PageIsEligible(w: World, s: State, page: Page)
    requires Inv(w, s) && s.mode == CatchingUp && PageOf(w.log, s.durable, LastSeq(s.sent), PAGE_LIMIT, page)
    ensures CanRead(w, s, |page.events|) && Eligible(w, s)[..|page.events|] == page.events
    ensures page.hasMore <==> |page.events| < |Eligible(w, s)|
  {
    hide CountUpTo, Increasing;
  }

  lemma PageStep(w: World, s: State, page: Page)
    requires CanRead(w, s, |page.events|) && Eligible(w, s)[..|page.events|] == page.events
    requires page.hasMore <==> |page.events| < |Eligible(w, s)|
    ensures var sent := s.sent + UpToTerminal(page.events);
      Apply(w, s, ReadPage(|page.events|))
        == s.(sent := sent, mode := if !Over(sent) && page.hasMore then CatchingUp else Listening)
  {
    hide Eligible, UpToTerminal;
  }

  /** A page that has more moves the cursor on. */
  lemma PageMovesOn(log: seq<Envelope>, durable: nat, after: nat, page: Page)
    requires Ordered(log) && PageOf(log, durable, after, PAGE_LIMIT, page)
    ensures page.hasMore ==> page.nextCursor.Some?
    ensures page.nextCursor.Some? ==>
      && page.events != [] && page.nextCursor.value == page.events[|page.events| - 1].seqNo
      && CountUpTo(log, after) < CountUpTo(log, page.nextCursor.value)
  {
    hide CountUpTo, Ordered;
    var first, count := CountUpTo(log[..durable], after), |page.events|;
    if count > 0 {
      LastIsLater(log, durable, after, first + count - 1);
      CountGrows(log, after, first + count - 1);
    }
  }

  lemma LastIsLater(log: seq<Envelope>, durable: nat, after: nat, i: nat)
    requires Ordered(log) && i < durable <= |log| && CountUpTo(log[..durable], after) <= i
    ensures log[i].seqNo > after
  {
    hide CountUpTo;
    var first := CountUpTo(log[..durable], after);
    assert log[..durable][first] == log[first];
  }

  lemma CountGrows(log: seq<Envelope>, after: nat, i: nat)
    requires Ordered(log) && i < |log| && log[i].seqNo > after
    ensures CountUpTo(log, after) < CountUpTo(log, log[i].seqNo)
  {
    hide CountUpTo;
    assert CountUpTo(log, after) <= i;
    assert CountUpTo(log, log[i].seqNo) > i;
  }

  lemma SliceOfSlice<T>(log: seq<T>, durable: nat, first: nat, end: nat, count: nat)
    requires first + count <= end <= durable <= |log|
    ensures log[..durable][first..end][..count] == log[first..first + count]
  {
    assert log[..durable][first..end] == log[first..end];
    assert log[first..end][..count] == log[first..first + count];
  }
}
