/**
  Permission requests to an ACP client. A request registers a one-shot sender and waits; a reply,
  a cancel or the end of the prompt takes the sender out of the table and sends a decision; a
  timeout gives up. The steps below interleave freely between the requests of all sessions.
 */
module Permissions {
  import opened Options

  datatype Decision = Approved | Denied

  /** What a client response says: its string id, its members, and the outcome inside a result. */
  datatype Reply = Reply(
    id: Option<nat>, jsonrpcIs20: bool, hasResult: bool, hasError: bool,
    outcome: Option<string>, optionId: Option<string>)

  /** A response holds a result or an error, not both (section 5 of JSON-RPC 2.0). */
  function DecisionOf(r: Reply): Decision {
    if !r.jsonrpcIs20 || r.hasResult == r.hasError then Denied
    else if r.hasResult && r.outcome == Some("selected") && r.optionId == Some("allow_once") then Approved
    else Denied
  }

  /** A well-formed answer that allows request `id` once. */
  predicate Allows(r: Reply, id: nat) {
    && r.id == Some(id) && r.jsonrpcIs20 && r.hasResult && !r.hasError
    && r.outcome == Some("selected") && r.optionId == Some("allow_once")
  }

  datatype Phase = Waiting | Decided(decision: Decision)

  /** A request in progress, and what its one-shot channel holds. */
  datatype Request = Request(session: string, phase: Phase, mailbox: Option<Decision>)

  /**
    `pending` is the table of senders by session; `inFlight` are senders taken out of it with the
    decision they are about to send; `answeredBy` is the reply that took a sender.
   */
  datatype State = State(
    nextId: nat,
    pending: map<string, set<nat>>,
    requests: map<nat, Request>,
    inFlight: map<nat, Decision>,
    answeredBy: map<nat, Reply>,
    resolved: map<nat, Decision>)

  datatype Step =
    | Register(session: string)
    | Respond(reply: Reply)
    | Send(id: nat)
    | CancelSession(session: string)
    | Receive(id: nat)
    | TimeOut(id: nat)
    | Finish(id: nat)

  const INITIAL := State(0, map[], map[], map[], map[], map[])

  function PendingOf(s: State, session: string): set<nat> {
    if session in s.pending then s.pending[session] else {}
  }

  predicate IsPending(s: State, id: nat) {
    id in s.requests && id in PendingOf(s, s.requests[id].session)
  }

  function RegisterRequest(s: State, session: string): State {
    var id := s.nextId + 1;
    s.(nextId := id,
       pending := s.pending[session := PendingOf(s, session) + {id}],
       requests := s.requests[id := Request(session, Waiting, None)])
  }

  function RespondTo(s: State, r: Reply): State {
    if r.id.Some? && IsPending(s, r.id.value) then
      var id := r.id.value;
      var session := s.requests[id].session;
      s.(pending := s.pending[session := s.pending[session] - {id}],
         inFlight := s.inFlight[id := DecisionOf(r)],
         answeredBy := s.answeredBy[id := r])
    else s
  }

  /** Sending to a request that gave up waiting does nothing. */
  function SendDecision(s: State, id: nat): State {
    if id in s.inFlight then
      var rest := s.(inFlight := s.inFlight - {id});
      if id in s.requests && s.requests[id].phase == Waiting
      then rest.(requests := s.requests[id := s.requests[id].(mailbox := Some(s.inFlight[id]))])
      else rest
    else s
  }

  function CancelPending(s: State, session: string): State {
    s.(pending := s.pending - {session},
       inFlight := s.inFlight + map id | id in PendingOf(s, session) :: Denied)
  }

  function ReceiveDecision(s: State, id: nat): State {
    if id in s.requests && s.requests[id].phase == Waiting && s.requests[id].mailbox.Some?
    then s.(requests := s.requests[id := s.requests[id].(phase := Decided(s.requests[id].mailbox.value))])
    else s
  }

  function GiveUp(s: State, id: nat): State {
    if id in s.requests && s.requests[id].phase == Waiting && s.requests[id].mailbox == None
    then s.(requests := s.requests[id := s.requests[id].(phase := Decided(Denied))])
    else s
  }

  /** The request removes what is left of its entry, and an emptied session with it. */
  function FinishRequest(s: State, id: nat): State {
    if id in s.requests && s.requests[id].phase.Decided? then
      var session := s.requests[id].session;
      var left := PendingOf(s, session) - {id};
      s.(pending := if left == {} then s.pending - {session} else s.pending[session := left],
         requests := s.requests - {id},
         resolved := s.resolved[id := s.requests[id].phase.decision])
    else s
  }

  function Apply(s: State, step: Step): State {
    match step
    case Register(session) => RegisterRequest(s, session)
    case Respond(reply) => RespondTo(s, reply)
    case Send(id) => SendDecision(s, id)
    case CancelSession(session) => CancelPending(s, session)
    case Receive(id) => ReceiveDecision(s, id)
    case TimeOut(id) => GiveUp(s, id)
    case Finish(id) => FinishRequest(s, id)
  }

  function Run(s: State, steps: seq<Step>): State
    decreases |steps|
  {
    if steps == [] then s else Run(Apply(s, steps[0]), steps[1..])
  }

  // ----- what every step keeps

  /** An approval of `id` comes from a reply that allows it. */
  ghost predicate Justified(s: State, id: nat, d: Decision) {
    d == Approved ==> id in s.answeredBy && Allows(s.answeredBy[id], id)
  }

  /** Every number handed out so far is a request in progress or a resolved one, never both. */
  ghost predicate Partitioned(s: State) {
    && (forall id: nat :: 1 <= id <= s.nextId <==> id in s.requests || id in s.resolved)
    && s.requests.Keys !! s.resolved.Keys
  }

  /** Every entry of the table belongs to a request in progress of that session, untouched so far. */
  ghost predicate TableIsLive(s: State) {
    forall session, id :: session in s.pending && id in s.pending[session] ==>
      && id in s.requests && s.requests[id].session == session
      && s.requests[id].mailbox == None && id !in s.inFlight && id !in s.answeredBy
  }

  /** A request that waits can still be decided: its sender is in the table, in flight or used. */
  ghost predicate NoneForgotten(s: State) {
    forall id :: id in s.requests && s.requests[id].phase == Waiting && s.requests[id].mailbox == None ==>
      IsPending(s, id) || id in s.inFlight
  }

  /** Senders in flight belong to known requests and have not been used. */
  ghost predicate OneShot(s: State) {
    && (forall id :: id in s.inFlight ==> id in s.requests || id in s.resolved)
    && (forall id :: id in s.inFlight && id in s.requests ==> s.requests[id].mailbox == None)
    && (forall id :: id in s.answeredBy ==> id in s.requests || id in s.resolved)
  }

  ghost predicate AllJustified(s: State) {
    && (forall id :: id in s.inFlight ==> Justified(s, id, s.inFlight[id]))
    && (forall id :: id in s.requests && s.requests[id].mailbox.Some? ==>
        Justified(s, id, s.requests[id].mailbox.value))
    && (forall id :: id in s.requests && s.requests[id].phase.Decided? ==>
        Justified(s, id, s.requests[id].phase.decision))
    && (forall id :: id in s.resolved ==> Justified(s, id, s.resolved[id]))
  }

  ghost predicate Shape(s: State) {
    Partitioned(s) && TableIsLive(s) && NoneForgotten(s) && OneShot(s)
  }

  ghost predicate Inv(s: State) {
    Shape(s) && AllJustified(s)
  }

  lemma RegisterKeepsTable(s: State, session: string)
    requires Shape(s)
    ensures Partitioned(RegisterRequest(s, session)) && TableIsLive(RegisterRequest(s, session))
  {
    hide NoneForgotten;
  }

  lemma RegisterForgetsNone(s: State, session: string)
    requires Shape(s)
    ensures NoneForgotten(RegisterRequest(s, session)) && OneShot(RegisterRequest(s, session))
  {
    hide TableIsLive;
  }

  lemma RegisterKeepsShape(s: State, session: string)
    requires Shape(s)
    ensures Shape(RegisterRequest(s, session))
  {
    hide Partitioned, TableIsLive, NoneForgotten, OneShot, RegisterRequest;
    RegisterKeepsTable(s, session);
    RegisterForgetsNone(s, session);
  }

  lemma RegisterKeepsJustified(s: State, session: string)
    requires Inv(s)
    ensures AllJustified(RegisterRequest(s, session))
  {
    hide NoneForgotten, Partitioned;
  }

  lemma RespondKeepsShape(s: State, r: Reply)
    requires Shape(s)
    ensures Shape(RespondTo(s, r))
  {
  }

  lemma RespondKeepsJustified(s: State, r: Reply)
    requires Inv(s)
    ensures AllJustified(RespondTo(s, r))
  {
    hide NoneForgotten, Partitioned;
  }

  lemma SendKeepsTable(s: State, id: nat)
    requires Shape(s)
    ensures Partitioned(SendDecision(s, id)) && TableIsLive(SendDecision(s, id))
  {
    hide NoneForgotten;
  }

  lemma SendForgetsNone(s: State, id: nat)
    requires Shape(s)
    ensures NoneForgotten(SendDecision(s, id)) && OneShot(SendDecision(s, id))
  {
  }

  lemma SendKeepsShape(s: State, id: nat)
    requires Shape(s)
    ensures Shape(SendDecision(s, id))
  {
    hide Partitioned, TableIsLive, NoneForgotten, OneShot, SendDecision;
    SendKeepsTable(s, id);
    SendForgetsNone(s, id);
  }

  lemma SendKeepsJustified(s: State, id: nat)
    requires Inv(s)
    ensures AllJustified(SendDecision(s, id))
  {
    hide NoneForgotten, Partitioned;
  }

  lemma CancelKeepsShape(s: State, session: string)
    requires Shape(s)
    ensures Shape(CancelPending(s, session))
  {
  }

  lemma CancelKeepsJustified(s: State, session: string)
    requires Inv(s)
    ensures AllJustified(CancelPending(s, session))
  {
    hide NoneForgotten, Partitioned;
  }

  lemma ReceiveKeepsShape(s: State, id: nat)
    requires Shape(s)
    ensures Shape(ReceiveDecision(s, id))
  {
  }

  lemma ReceiveKeepsJustified(s: State, id: nat)
    requires Inv(s)
    ensures AllJustified(ReceiveDecision(s, id))
  {
    hide NoneForgotten, Partitioned;
  }

  lemma GiveUpKeepsShape(s: State, id: nat)
    requires Shape(s)
    ensures Shape(GiveUp(s, id))
  {
  }

  lemma GiveUpKeepsJustified(s: State, id: nat)
    requires Inv(s)
    ensures AllJustified(GiveUp(s, id))
  {
    hide NoneForgotten, Partitioned;
  }

  lemma FinishKeepsTable(s: State, id: nat)
    requires Shape(s)
    ensures Partitioned(FinishRequest(s, id)) && TableIsLive(FinishRequest(s, id))
  {
    hide NoneForgotten;
  }

  lemma FinishForgetsNone(s: State, id: nat)
    requires Shape(s)
    ensures NoneForgotten(FinishRequest(s, id)) && OneShot(FinishRequest(s, id))
  {
  }

  lemma FinishKeepsShape(s: State, id: nat)
    requires Shape(s)
    ensures Shape(FinishRequest(s, id))
  {
    hide Partitioned, TableIsLive, NoneForgotten, OneShot, FinishRequest;
    FinishKeepsTable(s, id);
    FinishForgetsNone(s, id);
  }

  lemma FinishKeepsJustified(s: State, id: nat)
    requires Inv(s)
    ensures AllJustified(FinishRequest(s, id))
  {
    hide NoneForgotten, Partitioned;
  }

  /** Every step of every interleaving keeps the invariant. */
  lemma ApplyKeepsInv(s: State, step: Step)
    requires Inv(s)
    ensures Inv(Apply(s, step))
  {
    hide Shape, AllJustified, RegisterRequest, RespondTo, SendDecision, CancelPending, ReceiveDecision, GiveUp,
      FinishRequest;
    match step
    case Register(session) => RegisterKeepsShape(s, session); RegisterKeepsJustified(s, session);
    case Respond(r) => RespondKeepsShape(s, r); RespondKeepsJustified(s, r);
    case Send(id) => SendKeepsShape(s, id); SendKeepsJustified(s, id);
    case CancelSession(session) => CancelKeepsShape(s, session); CancelKeepsJustified(s, session);
    case Receive(id) => ReceiveKeepsShape(s, id); ReceiveKeepsJustified(s, id);
    case TimeOut(id) => GiveUpKeepsShape(s, id); GiveUpKeepsJustified(s, id);
    case Finish(id) => FinishKeepsShape(s, id); FinishKeepsJustified(s, id);
  }

  lemma {:induction false} RunKeepsInv(s: State, steps: seq<Step>)
    requires Inv(s)
    ensures Inv(Run(s, steps))
    decreases |steps|
  {
    hide Inv, Apply;
    if steps != [] {
      ApplyKeepsInv(s, steps[0]);
      RunKeepsInv(Apply(s, steps[0]), steps[1..]);
    }
  }

  // ----- over whole runs

  /** A decision, once made, is never changed: neither while the request is finishing nor after. */
  ghost predicate HasDecision(s: State, id: nat, d: Decision) {
    || (id in s.requests && s.requests[id].phase == Decided(d))
    || (id !in s.requests && id in s.resolved && s.resolved[id] == d)
  }

  lemma DecisionStays(s: State, step: Step, id: nat, d: Decision)
    requires Inv(s) && HasDecision(s, id, d)
    ensures HasDecision(Apply(s, step), id, d)
  {
    hide TableIsLive, NoneForgotten, OneShot, AllJustified;
  }

  lemma {:induction false} DecidedOnce(s: State, steps: seq<Step>, id: nat, d: Decision)
    requires Inv(s) && HasDecision(s, id, d)
    ensures HasDecision(Run(s, steps), id, d)
    decreases |steps|
  {
    hide Inv, Apply, HasDecision;
    if steps != [] {
      ApplyKeepsInv(s, steps[0]);
      DecisionStays(s, steps[0], id, d);
      DecidedOnce(Apply(s, steps[0]), steps[1..], id, d);
    }
  }

  /** Only a response takes a sender for an answer, and only once. */
  lemma AnswerStep(s: State, step: Step, id: nat)
    requires Inv(s)
    ensures id in s.answeredBy ==> id in Apply(s, step).answeredBy && Apply(s, step).answeredBy[id] == s.answeredBy[id]
    ensures id !in s.answeredBy && id in Apply(s, step).answeredBy ==>
      IsPending(s, id) && step == Respond(Apply(s, step).answeredBy[id])
  {
    hide Partitioned, NoneForgotten, OneShot, AllJustified;
  }

  lemma {:induction false} AnswersStay(s: State, steps: seq<Step>, id: nat)
    requires Inv(s) && id in s.answeredBy
    ensures id in Run(s, steps).answeredBy && Run(s, steps).answeredBy[id] == s.answeredBy[id]
    decreases |steps|
  {
    hide Inv, Apply;
    if steps != [] {
      ApplyKeepsInv(s, steps[0]);
      AnswerStep(s, steps[0], id);
      AnswersStay(Apply(s, steps[0]), steps[1..], id);
    }
  }

  /** A reply that took a sender was one of the run's responses. */
  lemma {:induction false} AnswersAreResponses(s: State, steps: seq<Step>, id: nat)
    requires Inv(s) && id in Run(s, steps).answeredBy && id !in s.answeredBy
    ensures Respond(Run(s, steps).answeredBy[id]) in steps
    decreases |steps|
  {
    hide Inv, Apply;
    if steps != [] {
      var next := Apply(s, steps[0]);
      ApplyKeepsInv(s, steps[0]);
      AnswerStep(s, steps[0], id);
      if id in next.answeredBy {
        AnswersStay(next, steps[1..], id);
      } else {
        AnswersAreResponses(next, steps[1..], id);
      }
    }
  }

  lemma InitialInv()
    ensures Inv(INITIAL)
  {
  }

  /**
    Over every interleaving: an approved request was answered by a response of the run that
    carries the request's own id and allows it; every request is in progress or resolved, never
    both; and the table holds only entries of requests in progress.
   */
  lemma ApprovedOnlyByOwnReply(steps: seq<Step>, id: nat)
    ensures var s := Run(INITIAL, steps);
      && (id in s.resolved && s.resolved[id] == Approved ==> exists r :: Respond(r) in steps && Allows(r, id))
      && (1 <= id <= s.nextId <==> id in s.requests || id in s.resolved)
      && !(id in s.requests && id in s.resolved)
      && (forall session :: session in s.pending && id in s.pending[session] ==> id in s.requests)
  {
    hide NoneForgotten, OneShot, Apply;
    InitialInv();
    RunKeepsInv(INITIAL, steps);
    var s := Run(INITIAL, steps);
    if id in s.resolved && s.resolved[id] == Approved {
      AnswersAreResponses(INITIAL, steps, id);
      assert Allows(s.answeredBy[id], id);
    }
  }

  /** Undisturbed, a reply decides its request: it is approved exactly when the reply allows it. */
  lemma ReplyDecides(s: State, id: nat, r: Reply)
    requires Inv(s) && IsPending(s, id) && s.requests[id].phase == Waiting && r.id == Some(id)
    ensures var f := Apply(Apply(Apply(Apply(s, Respond(r)), Send(id)), Receive(id)), Finish(id));
      && id in f.resolved && (f.resolved[id] == Approved <==> Allows(r, id))
      && id !in f.requests && id !in PendingOf(f, s.requests[id].session)
  {
    hide Partitioned, NoneForgotten, OneShot, AllJustified;
    var answered := RespondTo(s, r);
    var sent := SendDecision(answered, id);
    var received := ReceiveDecision(sent, id);
    assert received.requests[id] == Request(s.requests[id].session, Decided(DecisionOf(r)), Some(DecisionOf(r)));
  }

  /** No reply can still approve the request: nobody answered it and its sender is gone. */
  ghost predicate Unanswerable(s: State, id: nat) {
    id <= s.nextId && id !in s.answeredBy && !IsPending(s, id)
  }

  lemma UnanswerableStays(s: State, step: Step, id: nat)
    requires Inv(s) && Unanswerable(s, id)
    ensures Unanswerable(Apply(s, step), id)
  {
    hide NoneForgotten, OneShot, AllJustified;
  }

  lemma {:induction false} NeverApproved(s: State, steps: seq<Step>, id: nat)
    requires Inv(s) && Unanswerable(s, id)
    ensures Unanswerable(Run(s, steps), id) && Inv(Run(s, steps))
    decreases |steps|
  {
    hide Inv, Unanswerable, Apply;
    if steps != [] {
      ApplyKeepsInv(s, steps[0]);
      UnanswerableStays(s, steps[0], id);
      NeverApproved(Apply(s, steps[0]), steps[1..], id);
    }
  }

  /** A cancel, or the end of the prompt, denies every request of the session that has no answer
      yet, whatever replies come later. */
  lemma CancelDenies(s: State, id: nat, steps: seq<Step>)
    requires Inv(s) && id in s.requests && id !in s.answeredBy
    ensures var final := Run(CancelPending(s, s.requests[id].session), steps);
      id in final.resolved ==> final.resolved[id] == Denied
  {
    hide Apply, TableIsLive, NoneForgotten, OneShot;
    var session := s.requests[id].session;
    ApplyKeepsInv(s, CancelSession(session));
    assert Apply(s, CancelSession(session)) == CancelPending(s, session) by { ApplyCancel(s, session); }
    NeverApproved(CancelPending(s, session), steps, id);
  }

  lemma ApplyCancel(s: State, session: string)
    ensures Apply(s, CancelSession(session)) == CancelPending(s, session)
  {
  }

  /** A request that still waits is never stuck: its sender is in the table, or on its way. */
  lemma WaitingCanBeDecided(steps: seq<Step>, id: nat)
    ensures var s := Run(INITIAL, steps);
      id in s.requests && s.requests[id].phase == Waiting ==>
        IsPending(s, id) || id in s.inFlight || s.requests[id].mailbox.Some?
  {
    hide Apply, TableIsLive, OneShot, AllJustified;
    InitialInv();
    RunKeepsInv(INITIAL, steps);
  }

  // ----- the adapter's own steps

  /** The adapter's tables; each method is one critical section or one wake-up. */
  class AcpServer {
    var nextRequestId: nat
    var permissions: map<string, set<nat>>
    var requests: map<nat, Request>
    var inFlight: map<nat, Decision>
    var resolved: map<nat, Decision>
    ghost var answeredBy: map<nat, Reply>

    ghost function Abstract(): State
      reads this
    {
      State(nextRequestId, permissions, requests, inFlight, answeredBy, resolved)
    }

    constructor ()
      ensures Abstract() == INITIAL
    {
      nextRequestId, permissions, requests, inFlight, resolved, answeredBy := 0, map[], map[], map[], map[], map[];
    }

    method RegisterPermission(session: string) returns (id: nat)
      modifies this
      ensures Abstract() == Apply(old(Abstract()), Register(session)) && id == nextRequestId
    {
      nextRequestId := nextRequestId + 1;
      id := nextRequestId;
      var entries := if session in permissions then permissions[session] else {};
      permissions := permissions[session := entries + {id}];
      requests := requests[id := Request(session, Waiting, None)];
    }

    /** Looks the id up in the tables of all sessions. */
    method FindSession(id: nat) returns (found: Option<string>)
      requires Inv(Abstract())
      ensures found == if IsPending(Abstract(), id) then Some(requests[id].session) else None
    {
      var sessions := permissions.Keys;
      while sessions != {}
        invariant sessions <= permissions.Keys
        invariant forall session :: session in permissions && session !in sessions ==> id !in permissions[session]
        decreases sessions
      {
        var session :| session in sessions;
        if id in permissions[session] {
          return Some(session);
        }
        sessions := sessions - {session};
      }
      found := None;
    }

    method HandleClientResponse(reply: Reply)
      requires Inv(Abstract())
      modifies this
      ensures Abstract() == Apply(old(Abstract()), Respond(reply))
    {
      if reply.id == None {
        return;
      }
      var id := reply.id.value;
      var session := FindSession(id);
      if session == None {
        return;
      }
      permissions := permissions[session.value := permissions[session.value] - {id}];
      var malformed := !reply.jsonrpcIs20 || reply.hasResult == reply.hasError;
      var decision := Denied;
      if !malformed && reply.hasResult && reply.outcome == Some("selected") && reply.optionId == Some("allow_once") {
        decision := Approved;
      }
      inFlight := inFlight[id := decision];
      answeredBy := answeredBy[id := reply];
    }

    method SendOneDecision(id: nat)
      modifies this
      ensures Abstract() == Apply(old(Abstract()), Send(id))
    {
      if id in inFlight {
        var decision := inFlight[id];
        inFlight := inFlight - {id};
        if id in requests && requests[id].phase == Waiting {
          requests := requests[id := requests[id].(mailbox := Some(decision))];
        }
      }
    }

    method CancelPendingPermissions(session: string)
      modifies this
      ensures Abstract() == Apply(old(Abstract()), CancelSession(session))
    {
      var pending := if session in permissions then permissions[session] else {};
      permissions := permissions - {session};
      inFlight := inFlight + map id | id in pending :: Denied;
    }

    /** The request wakes up: a decision arrived, or the time is over. */
    method Wake(id: nat) returns (timedOut: bool)
      modifies this
      ensures Abstract() == Apply(old(Abstract()), if timedOut then TimeOut(id) else Receive(id))
      ensures old(id in requests && requests[id].phase == Waiting) ==> id in requests && requests[id].phase.Decided?
    {
      if id !in requests || requests[id].phase != Waiting {
        return false;
      }
      match requests[id].mailbox
      case Some(decision) =>
        requests := requests[id := requests[id].(phase := Decided(decision))];
        timedOut := false;
      case None =>
        requests := requests[id := requests[id].(phase := Decided(Denied))];
        timedOut := true;
    }

    method FinishPermission(id: nat)
      modifies this
      ensures Abstract() == Apply(old(Abstract()), Finish(id))
    {
      if id in requests && requests[id].phase.Decided? {
        var session := requests[id].session;
        if session in permissions {
          var pending := permissions[session] - {id};
          permissions := permissions[session := pending];
          if pending == {} {
            permissions := permissions - {session};
          }
        }
        resolved := resolved[id := requests[id].phase.decision];
        requests := requests - {id};
      }
    }
  }
}
