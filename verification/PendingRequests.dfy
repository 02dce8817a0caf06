/**
  Requests of the App Protocol client. A request puts a one-shot sender into a table, writes its
  frame and waits; the reader task takes the sender that a response frame names, and when the
  transport ends it takes all of them. A write error or a timeout makes the request give up.
 */
module PendingRequests {
  import opened Options

  /** What a sender is used for: the payload of a success frame, or the error of a failure frame. */
  datatype Answer = Success(payload: string) | Failure(error: string)

  datatype Outcome = Delivered(answer: Answer) | TransportError | TimedOut

  datatype Phase = Writing | Waiting | Leaving(outcome: Outcome)

  /** A request in progress, and what its one-shot channel holds. */
  datatype Request = Request(phase: Phase, mailbox: Option<Answer>)

  /**
    `pending` is the table of senders; `inFlight` are senders taken out of it with what they are
    about to send; `takenWith` is what each taken sender was used for; `closed` says that the
    reader task has left its loop, and `late` are the requests made after that.
   */
  datatype State = State(
    nextId: nat,
    pending: set<nat>,
    requests: map<nat, Request>,
    inFlight: map<nat, Answer>,
    takenWith: map<nat, Answer>,
    resolved: map<nat, Outcome>,
    closed: bool,
    late: set<nat>)

  datatype Step =
    | Register
    | Written(id: nat)
    | WriteFails(id: nat)
    | Frame(id: nat, answer: Answer)
    | Close(message: string)
    | Send(id: nat)
    | Receive(id: nat)
    | TimeOut(id: nat)
    | Leave(id: nat)

  const INITIAL := State(1, {}, map[], map[], map[], map[], false, {})

  function TransportClosed(message: string): Answer {
    Failure("transport_closed: " + message)
  }

  predicate InPhase(s: State, id: nat, phase: Phase) {
    id in s.requests && s.requests[id].phase == phase
  }

  function SetPhase(s: State, id: nat, phase: Phase): State
    requires id in s.requests
  {
    s.(requests := s.requests[id := s.requests[id].(phase := phase)])
  }

  function Apply(s: State, step: Step): State {
    match step
    case Register =>
      var id := s.nextId;
      s.(nextId := id + 1, pending := s.pending + {id}, requests := s.requests[id := Request(Writing, None)],
         late := if s.closed then s.late + {id} else s.late)
    case Written(id) => if InPhase(s, id, Writing) then SetPhase(s, id, Waiting) else s
    case WriteFails(id) => if InPhase(s, id, Writing) then SetPhase(s, id, Leaving(TransportError)) else s
    case Frame(id, answer) => if s.closed || id !in s.pending then s else TakeOne(s, id, answer)
    case Close(message) => if s.closed then s else TakeAll(s, TransportClosed(message))
    case Send(id) => SendAnswer(s, id)
    case Receive(id) =>
      if InPhase(s, id, Waiting) && s.requests[id].mailbox.Some?
      then SetPhase(s, id, Leaving(Delivered(s.requests[id].mailbox.value))) else s
    case TimeOut(id) =>
      if InPhase(s, id, Waiting) && s.requests[id].mailbox == None then SetPhase(s, id, Leaving(TimedOut)) else s
    case Leave(id) =>
      if id in s.requests && s.requests[id].phase.Leaving?
      then s.(pending := if s.requests[id].phase.outcome.Delivered? then s.pending else s.pending - {id},
              requests := s.requests - {id},
              resolved := s.resolved[id := s.requests[id].phase.outcome])
      else s
  }

  function TakeOne(s: State, id: nat, answer: Answer): State {
    s.(pending := s.pending - {id}, inFlight := s.inFlight[id := answer], takenWith := s.takenWith[id := answer])
  }

  function TakeAll(s: State, answer: Answer): State {
    s.(pending := {},
       inFlight := s.inFlight + map id | id in s.pending :: answer,
       takenWith := s.takenWith + map id | id in s.pending :: answer,
       closed := true)
  }

  /** Sending to a request that is gone does nothing. */
  function SendAnswer(s: State, id: nat): State {
    if id !in s.inFlight then s
    else
      var rest := s.(inFlight := s.inFlight - {id});
      if id in s.requests then rest.(requests := s.requests[id := s.requests[id].(mailbox := Some(s.inFlight[id]))])
      else rest
  }

  function Run(s: State, steps: seq<Step>): State
    decreases |steps|
  {
    if steps == [] then s else Run(Apply(s, steps[0]), steps[1..])
  }

  // ----- what every step keeps

  /** Every id handed out is a request in progress or a resolved one, never both. */
  ghost predicate Partitioned(s: State) {
    && s.nextId >= 1
    && (forall id: nat :: 1 <= id < s.nextId <==> id in s.requests || id in s.resolved)
    && s.requests.Keys !! s.resolved.Keys
  }

  /** An entry belongs to a request in progress that nothing was sent to. */
  ghost predicate TableIsLive(s: State) {
    forall id :: id in s.pending ==>
      id in s.requests && s.requests[id].mailbox == None && id !in s.inFlight && id !in s.takenWith
  }

  /** A sender that left the table is on its way or used, unless its request gave up. */
  ghost predicate NoneForgotten(s: State) {
    forall id :: id in s.requests && !s.requests[id].phase.Leaving? && s.requests[id].mailbox == None ==>
      id in s.pending || id in s.inFlight
  }

  /** Whatever reaches a request is what its own sender was taken with. */
  ghost predicate OwnAnswers(s: State) {
    && (forall id :: id in s.inFlight ==> id in s.takenWith && s.takenWith[id] == s.inFlight[id])
    && (forall id :: id in s.requests && s.requests[id].mailbox.Some? ==>
          id in s.takenWith && s.takenWith[id] == s.requests[id].mailbox.value)
    && (forall id :: id in s.requests && s.requests[id].phase.Leaving? ==> Owned(s, id, s.requests[id].phase.outcome))
    && (forall id :: id in s.resolved ==> Owned(s, id, s.resolved[id]))
    && (forall id :: id in s.takenWith ==> 1 <= id < s.nextId)
  }

  ghost predicate Owned(s: State, id: nat, outcome: Outcome) {
    outcome.Delivered? ==> id in s.takenWith && s.takenWith[id] == outcome.answer
  }

  /** Once the reader is gone, only late requests are in the table, and none of them is answered. */
  ghost predicate LateOnly(s: State) {
    && (forall id :: id in s.late ==> s.closed && 1 <= id < s.nextId && id !in s.takenWith)
    && (s.closed ==> s.pending <= s.late)
  }

  ghost predicate Inv(s: State) {
    Partitioned(s) && TableIsLive(s) && NoneForgotten(s) && OwnAnswers(s) && LateOnly(s)
  }

  lemma ApplyKeepsPartition(s: State, step: Step)
    requires Inv(s)
    ensures Partitioned(Apply(s, step))
  {
    hide NoneForgotten, OwnAnswers, LateOnly;
  }

  lemma ApplyKeepsTable(s: State, step: Step)
    requires Inv(s)
    ensures TableIsLive(Apply(s, step))
  {
    hide NoneForgotten, LateOnly;
  }

  lemma ApplyForgetsNone(s: State, step: Step)
    requires Inv(s)
    ensures NoneForgotten(Apply(s, step))
  {
    hide OwnAnswers, LateOnly;
  }

  lemma TakeOneKeepsAnswers(s: State, id: nat, answer: Answer)
    requires Inv(s) && id in s.pending
    ensures OwnAnswers(TakeOne(s, id, answer))
  {
    hide NoneForgotten, LateOnly;
  }

  lemma TakeAllKeepsAnswers(s: State, answer: Answer)
    requires Inv(s)
    ensures OwnAnswers(TakeAll(s, answer))
  {
    hide NoneForgotten, LateOnly;
  }

  lemma SetPhaseKeepsAnswers(s: State, id: nat, phase: Phase)
    requires OwnAnswers(s) && id in s.requests
    requires phase.Leaving? ==> Owned(s, id, phase.outcome)
    ensures OwnAnswers(SetPhase(s, id, phase))
  {
  }

  lemma SendKeepsAnswers(s: State, id: nat)
    requires OwnAnswers(s)
    ensures OwnAnswers(SendAnswer(s, id))
  {
  }

  lemma ApplyKeepsAnswers(s: State, step: Step)
    requires Inv(s)
    ensures OwnAnswers(Apply(s, step))
  {
    hide TakeOne, TakeAll, SendAnswer, SetPhase, TableIsLive, NoneForgotten, LateOnly;
    match step
    case Written(id) => if InPhase(s, id, Writing) { SetPhaseKeepsAnswers(s, id, Waiting); }
    case WriteFails(id) => if InPhase(s, id, Writing) { SetPhaseKeepsAnswers(s, id, Leaving(TransportError)); }
    case Frame(id, answer) => if id in s.pending { TakeOneKeepsAnswers(s, id, answer); }
    case Close(message) => TakeAllKeepsAnswers(s, TransportClosed(message));
    case Send(id) => SendKeepsAnswers(s, id);
    case Receive(id) =>
      if InPhase(s, id, Waiting) && s.requests[id].mailbox.Some? {
        SetPhaseKeepsAnswers(s, id, Leaving(Delivered(s.requests[id].mailbox.value)));
      }
    case TimeOut(id) => if InPhase(s, id, Waiting) { SetPhaseKeepsAnswers(s, id, Leaving(TimedOut)); }
    case _ =>
  }

  lemma ApplyKeepsLate(s: State, step: Step)
    requires Inv(s)
    ensures LateOnly(Apply(s, step))
  {
    hide NoneForgotten;
  }

  lemma ApplyKeepsInv(s: State, step: Step)
    requires Inv(s)
    ensures Inv(Apply(s, step))
  {
    hide Apply;
    ApplyKeepsPartition(s, step);
    ApplyKeepsTable(s, step);
    ApplyForgetsNone(s, step);
    ApplyKeepsAnswers(s, step);
    ApplyKeepsLate(s, step);
  }

  lemma InitialInv()
    ensures Inv(INITIAL)
  {
  }

  // ----- over whole runs

  /** A step that can have taken the sender of `id` to send `answer`. */
  ghost predicate Takes(step: Step, id: nat, answer: Answer) {
    step == Frame(id, answer) || (step.Close? && answer == TransportClosed(step.message))
  }

  lemma TakenByStep(s: State, step: Step, id: nat)
    requires Inv(s)
    ensures id in s.takenWith ==> id in Apply(s, step).takenWith && Apply(s, step).takenWith[id] == s.takenWith[id]
    ensures id !in s.takenWith && id in Apply(s, step).takenWith ==> Takes(step, id, Apply(s, step).takenWith[id])
    ensures id in s.resolved ==> id in Apply(s, step).resolved && Apply(s, step).resolved[id] == s.resolved[id]
    ensures id in s.late ==> id in Apply(s, step).late
  {
    hide NoneForgotten, OwnAnswers;
  }

  /** What has been taken, resolved or is late stays so; whatever is taken is taken by a step. */
  lemma {:induction false} History(s: State, steps: seq<Step>, id: nat)
    requires Inv(s)
    ensures var final := Run(s, steps);
      && Inv(final)
      && (id in s.takenWith ==> id in final.takenWith && final.takenWith[id] == s.takenWith[id])
      && (id !in s.takenWith && id in final.takenWith ==>
          exists step :: step in steps && Takes(step, id, final.takenWith[id]))
      && (id in s.resolved ==> id in final.resolved && final.resolved[id] == s.resolved[id])
      && (id in s.late ==> id in final.late)
    decreases |steps|
  {
    hide Inv, Apply, Takes;
    if steps != [] {
      var next := Apply(s, steps[0]);
      ApplyKeepsInv(s, steps[0]);
      TakenByStep(s, steps[0], id);
      History(next, steps[1..], id);
      var final := Run(next, steps[1..]);
      if id !in s.takenWith && id in final.takenWith && id in next.takenWith {
        assert steps[0] in steps && Takes(steps[0], id, final.takenWith[id]);
      }
    }
  }

  /**
    Over every interleaving: what a request gets is the content of a response frame with its own
    id, or the report that the transport ended; the result never changes; every id is in progress
    or resolved, never both; and no table entry outlives its request.
   */
  lemma AnsweredByOwnFrame(steps: seq<Step>, more: seq<Step>, id: nat)
    ensures var s := Run(INITIAL, steps);
      && (id in s.resolved && s.resolved[id].Delivered? ==>
            exists step :: step in steps && Takes(step, id, s.resolved[id].answer))
      && (id in s.resolved ==> id in Run(s, more).resolved && Run(s, more).resolved[id] == s.resolved[id])
      && (1 <= id < s.nextId <==> id in s.requests || id in s.resolved)
      && !(id in s.requests && id in s.resolved)
      && (id in s.pending ==> id in s.requests)
  {
    hide Apply, NoneForgotten, LateOnly, Takes;
    InitialInv();
    History(INITIAL, steps, id);
    History(Run(INITIAL, steps), more, id);
  }

  /**
    Once the reader is gone: a request made before that and still without an answer has its
    answer on the way; one made after it is never answered, so it gives up with an error of its
    own write or waits until its timeout.
   */
  lemma AfterTheReader(steps: seq<Step>, more: seq<Step>, id: nat)
    requires Run(INITIAL, steps).closed
    ensures var s := Run(INITIAL, steps);
      && (id in s.requests && id !in s.late ==>
            s.requests[id].phase.Leaving? || s.requests[id].mailbox.Some? || id in s.inFlight)
      && (id in s.late && id in Run(s, more).resolved ==> !Run(s, more).resolved[id].Delivered?)
  {
    hide Apply, Partitioned, TableIsLive;
    InitialInv();
    History(INITIAL, steps, id);
    History(Run(INITIAL, steps), more, id);
  }

  /** Undisturbed, a response frame is what its request gets. */
  lemma FrameAnswers(s: State, id: nat, answer: Answer)
    requires Inv(s) && !s.closed && id in s.pending && InPhase(s, id, Waiting)
    ensures var f := Apply(Apply(Apply(Apply(s, Frame(id, answer)), Send(id)), Receive(id)), Leave(id));
      id in f.resolved && f.resolved[id] == Delivered(answer) && id !in f.pending
  {
    hide Partitioned, NoneForgotten, OwnAnswers, LateOnly;
  }

  // ----- the client's own steps

  /** The client's tables; each method is one critical section or one wake-up. */
  class AppClient {
    var nextId: nat
    var pending: set<nat>
    var requests: map<nat, Request>
    var inFlight: map<nat, Answer>
    var resolved: map<nat, Outcome>
    var closed: bool
    ghost var takenWith: map<nat, Answer>
    ghost var late: set<nat>

    ghost function Abstract(): State
      reads this
    {
      State(nextId, pending, requests, inFlight, takenWith, resolved, closed, late)
    }

    constructor ()
      ensures Abstract() == INITIAL
    {
      nextId, pending, requests, inFlight, resolved, closed := 1, {}, map[], map[], map[], false;
      takenWith, late := map[], {};
    }

    method Register() returns (id: nat)
      modifies this
      ensures Abstract() == Apply(old(Abstract()), Step.Register) && id == old(nextId)
    {
      id := nextId;
      nextId := id + 1;
      pending := pending + {id};
      requests := requests[id := Request(Writing, None)];
      late := if closed then late + {id} else late;
    }

    /** The frame is written, or the write fails. */
    method Write(id: nat) returns (ok: bool)
      modifies this
      ensures Abstract() == Apply(old(Abstract()), if ok then Written(id) else WriteFails(id))
    {
      ok := *;
      if id in requests && requests[id].phase == Writing {
        requests := requests[id := requests[id].(phase := if ok then Waiting else Leaving(TransportError))];
      }
    }

    /** The reader takes the sender a response frame names. */
    method TakePending(id: nat, answer: Answer) returns (found: bool)
      modifies this
      ensures Abstract() == Apply(old(Abstract()), Frame(id, answer))
      ensures found <==> !old(closed) && id in old(pending)
    {
      found := !closed && id in pending;
      if found {
        pending := pending - {id};
        inFlight := inFlight[id := answer];
        takenWith := takenWith[id := answer];
      }
    }

    /** The transport ends: every sender in the table reports it. */
    method FailPending(message: string)
      requires !closed
      modifies this
      ensures Abstract() == Apply(old(Abstract()), Close(message)) && pending == {} && closed
      ensures forall id :: id in old(pending) ==>
        id in inFlight && inFlight[id] == Failure("transport_closed: " + message)
    {
      var taken := pending;
      pending := {};
      inFlight := inFlight + map id | id in taken :: TransportClosed(message);
      takenWith := takenWith + map id | id in taken :: TransportClosed(message);
      closed := true;
    }

    method SendOne(id: nat)
      modifies this
      ensures Abstract() == Apply(old(Abstract()), Send(id))
    {
      if id in inFlight {
        var answer := inFlight[id];
        inFlight := inFlight - {id};
        if id in requests {
          requests := requests[id := requests[id].(mailbox := Some(answer))];
        }
      }
    }

    /** The request wakes up: an answer arrived, or the time is over. */
    method Wake(id: nat) returns (timedOut: bool)
      modifies this
      ensures Abstract() == Apply(old(Abstract()), if timedOut then TimeOut(id) else Receive(id))
      ensures old(id in requests && requests[id].phase == Waiting) ==> id in requests && requests[id].phase.Leaving?
    {
      if id !in requests || requests[id].phase != Waiting {
        return false;
      }
      timedOut := requests[id].mailbox == None;
      var outcome := if timedOut then TimedOut else Delivered(requests[id].mailbox.value);
      requests := requests[id := requests[id].(phase := Leaving(outcome))];
    }

    /** The request returns; one that gave up removes its entry. */
    method Return(id: nat) returns (outcome: Option<Outcome>)
      modifies this
      ensures Abstract() == Apply(old(Abstract()), Leave(id))
      ensures outcome.Some? ==> id in resolved && resolved[id] == outcome.value
    {
      outcome := None;
      if id in requests && requests[id].phase.Leaving? {
        outcome := Some(requests[id].phase.outcome);
        if !outcome.value.Delivered? {
          pending := pending - {id};
        }
        resolved := resolved[id := outcome.value];
        requests := requests - {id};
      }
    }
  }
}
