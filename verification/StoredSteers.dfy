/**
  Messages submitted while a run is active. The store takes each at once, between any two effects
  of the run; the run says it at its next drain.
 */
module StoredSteers {
  import opened Options
  import opened Transcript
  import opened Journal
  import opened Protocol
  import opened HistoryRebuild
  import opened ToolBatch
  import opened BatchReplay
  import opened RunReplay

  // ----- messages submitted while the run is active

  function OwnEffect(e: Effect): seq<Effect> {
    if e.SteerStored? then [] else [e]
  }

  /** What the run itself does and meets. */
  function WithoutSteers(full: seq<Effect>): seq<Effect> {
    Read(full, OwnEffect)
  }

  /** A user message that was submitted with this text. */
  predicate IsSteer(m: Message, text: string) {
    m == TextMessage(User, text).(parts := m.parts)
  }

  /** What a drain hands over: user messages with a text. */
  ghost predicate AreSteers(steers: seq<Message>) {
    forall i :: 0 <= i < |steers| ==> steers[i].content.Some? && IsSteer(steers[i], steers[i].content.value)
  }

  lemma SteersArePlain(steers: seq<Message>)
    requires AreSteers(steers)
    ensures Plain(steers) && forall i :: 0 <= i < |steers| ==> steers[i].role == User
  {
  }

  /** Every drain hands over what was stored since the one before it, in order; `pending` is
      stored and not yet drained. */
  ghost predicate Drained(pending: seq<string>, full: seq<Effect>)
    decreases |full|
  {
    full == [] ||
    match full[0]
    case SteerStored(steer) => Drained(pending + [steer], full[1..])
    case SteersDrained(steers) =>
      && |steers| == |pending| && (forall i :: 0 <= i < |steers| ==> IsSteer(steers[i], pending[i]))
      && Drained([], full[1..])
    case _ => Drained(pending, full[1..])
  }

  /** The store holds what the run does, and between any two effects what was submitted to it. */
  ghost predicate StoredRun(full: seq<Effect>, log: seq<Effect>) {
    WithoutSteers(full) == log && Drained([], full)
  }

  /** A user message settles nothing and asks for nothing, wherever it is stored. */
  lemma {:induction false} OwedWithoutSteers(full: seq<Effect>, n: nat)
    ensures OwedFrom(n, Replay(full)) == OwedFrom(n, Replay(WithoutSteers(full)))
  {
    hide Replay, OwedFrom;
    if full != [] {
      var (e, rest) := (full[0], full[1..]);
      ReplayHead(full, n);
      if e.SteerStored? {
        assert WithoutSteers(full) == WithoutSteers(rest);
        OwedWithoutSteers(rest, n);
      } else {
        assert WithoutSteers(full)[0] == e && WithoutSteers(full)[1..] == WithoutSteers(rest);
        ReplayHead(WithoutSteers(full), n);
        if OweAfter(n, e).Some? {
          OwedWithoutSteers(rest, OweAfter(n, e).value);
        }
      }
    }
  }

  lemma ReadHead(full: seq<Effect>)
    requires full != []
    ensures Replay(full) == Rebuilt(full[0]) + Replay(full[1..])
    ensures SpokenIn(full) == Spoken(full[0]) + SpokenIn(full[1..])
  {
  }

  lemma {:induction false} SpokenWithoutSteers(full: seq<Effect>)
    ensures SpokenIn(WithoutSteers(full)) == SpokenIn(full)
  {
    hide SpokenIn;
    if full != [] {
      ReadHead(full);
      SpokenWithoutSteers(full[1..]);
      if full[0].SteerStored? {
        assert WithoutSteers(full) == WithoutSteers(full[1..]);
      } else {
        assert WithoutSteers(full)[0] == full[0] && WithoutSteers(full)[1..] == WithoutSteers(full[1..]);
        ReadHead(WithoutSteers(full));
      }
    }
  }

  // ----- every run can be stored

  function TextsOf(steers: seq<Message>): (r: seq<string>)
    ensures |r| == |steers|
  {
    seq(|steers|, i requires 0 <= i < |steers| => match steers[i].content case None => "" case Some(text) => text)
  }

  function Stored(texts: seq<string>): (r: seq<Effect>)
    ensures |r| == |texts|
  {
    seq(|texts|, i requires 0 <= i < |texts| => SteerStored(texts[i]))
  }

  /** Each steer is stored right before its drain. */
  function StoredAtDrains(log: seq<Effect>): seq<Effect> {
    Read(log, (e: Effect) => (if e.SteersDrained? then Stored(TextsOf(e.steers)) else []) + [e])
  }

  lemma {:induction false} StoreThenDrain(pending: seq<string>, texts: seq<string>, e: Effect, rest: seq<Effect>)
    requires e.SteersDrained? && |e.steers| == |pending| + |texts|
    requires forall i :: 0 <= i < |e.steers| ==> IsSteer(e.steers[i], (pending + texts)[i])
    requires Drained([], rest) && SaidAtOnce(0, rest)
    ensures var full := Stored(texts) + ([e] + rest);
      Drained(pending, full) && SaidAtOnce(|pending|, full) && WithoutSteers(full) == [e] + WithoutSteers(rest)
    decreases |texts|
  {
    hide Stored;
    if texts == [] {
      assert pending + texts == pending;
      DrainFirst(pending, e, rest);
      assert Stored(texts) + ([e] + rest) == [e] + rest by { NothingStored(); }
    } else {
      assert pending + texts == pending + [texts[0]] + texts[1..];
      StoreThenDrain(pending + [texts[0]], texts[1..], e, rest);
      StoreFirst(pending, texts, [e] + rest);
    }
  }

  lemma NothingStored()
    ensures Stored([]) == []
  {
  }

  lemma DrainFirst(pending: seq<string>, e: Effect, rest: seq<Effect>)
    requires e.SteersDrained? && |e.steers| == |pending| && Drained([], rest) && SaidAtOnce(0, rest)
    requires forall i :: 0 <= i < |e.steers| ==> IsSteer(e.steers[i], pending[i])
    ensures var full := [e] + rest;
      Drained(pending, full) && SaidAtOnce(|pending|, full) && WithoutSteers(full) == [e] + WithoutSteers(rest)
  {
    assert ([e] + rest)[1..] == rest;
  }

  lemma StoreFirst(pending: seq<string>, texts: seq<string>, rest: seq<Effect>)
    requires texts != []
    ensures var (full, later) := (Stored(texts) + rest, Stored(texts[1..]) + rest);
      && WithoutSteers(full) == WithoutSteers(later)
      && (Drained(pending, full) <==> Drained(pending + [texts[0]], later))
      && (SaidAtOnce(|pending|, full) <==> SaidAtOnce(|pending| + 1, later))
  {
    hide WithoutSteers, Drained, SaidAtOnce;
    assert Stored(texts) + rest == [SteerStored(texts[0])] + (Stored(texts[1..]) + rest);
    SteerHead(pending, texts[0], Stored(texts[1..]) + rest);
  }

  lemma SteerHead(pending: seq<string>, steer: string, later: seq<Effect>)
    ensures var full := [SteerStored(steer)] + later;
      && WithoutSteers(full) == WithoutSteers(later)
      && (Drained(pending, full) <==> Drained(pending + [steer], later))
      && (SaidAtOnce(|pending|, full) <==> SaidAtOnce(|pending| + 1, later))
  {
    var full := [SteerStored(steer)] + later;
    assert full[0] == SteerStored(steer) && full[1..] == later;
  }

  /** Nothing is said between the moment a steer is stored and its drain, and none is left over. */
  predicate SaidAtOnce(pending: nat, full: seq<Effect>)
    decreases |full|
  {
    if full == [] then pending == 0
    else if full[0].SteerStored? then SaidAtOnce(pending + 1, full[1..])
    else if full[0].SteersDrained? then SaidAtOnce(0, full[1..])
    else (Rebuilt(full[0]) == [] || pending == 0) && SaidAtOnce(pending, full[1..])
  }

  function AsUser(pending: seq<string>): (r: seq<Message>)
    ensures |r| == |pending|
  {
    seq(|pending|, i requires 0 <= i < |pending| => TextMessage(User, pending[i]))
  }

  lemma SteersAsUser(steers: seq<Message>, pending: seq<string>)
    requires |steers| == |pending| && forall i :: 0 <= i < |steers| ==> IsSteer(steers[i], pending[i])
    ensures Faded(steers) == AsUser(pending)
  {
  }

  /** An effect is rebuilt as it was said, but for its parts and the text of a failed result, of which
      only the code is left. */
  lemma RebuiltIsSpoken(e: Effect)
    requires !e.SteerStored? && !e.SteersDrained?
    ensures Faded(Rebuilt(e)) == Faded(Spoken(e)) && (Rebuilt(e) == [] <==> Spoken(e) == [])
    ensures Rebuilt(e) != [] ==> |Rebuilt(e)| == 1 == |Spoken(e)|
    ensures Rebuilt(e) != [] ==> Rebuilt(e)[0].(content := Spoken(e)[0].content) == Spoken(e)[0].(parts := [])
    ensures Rebuilt(e) != [] ==>
      Rebuilt(e)[0].content == (if e.ToolFailed? then Some(e.failed.result.code) else Spoken(e)[0].content)
  {
  }

  lemma OneMorePending(pending: seq<string>, steer: string, replay: seq<Message>)
    ensures AsUser(pending) + ([TextMessage(User, steer)] + replay) == AsUser(pending + [steer]) + replay
  {
    assert AsUser(pending + [steer]) == AsUser(pending) + [TextMessage(User, steer)];
  }

  /** Steers that are said where they are stored: the store replays to what was said. */
  lemma {:induction false} SaidAtOnceReplay(pending: seq<string>, full: seq<Effect>)
    requires Drained(pending, full) && SaidAtOnce(|pending|, full)
    ensures AsUser(pending) + Faded(Replay(full)) == Faded(SpokenIn(full))
    decreases |full|
  {
    hide Replay, SpokenIn, AsUser, Faded, Rebuilt;
    if full == [] {
      NothingPending(pending);
    } else {
      var (e, rest) := (full[0], full[1..]);
      ReadHead(full);
      FadedConcat(Spoken(e), SpokenIn(rest));
      FadedConcat(Rebuilt(e), Replay(rest));
      match e {
        case SteerStored(steer) =>
          SaidAtOnceReplay(pending + [steer], rest);
          StoredIsRebuilt(steer);
          OneMorePending(pending, steer, Faded(Replay(rest)));
        case SteersDrained(steers) =>
          SaidAtOnceReplay([], rest);
          NothingPending([]);
          DrainIsNoMessage(steers);
          SteersAsUser(steers, pending);
        case _ =>
          SaidAtOnceReplay(pending, rest);
          RebuiltIsSpoken(e);
          if Rebuilt(e) != [] {
            NothingPending(pending);
          }
      }
    }
  }

  lemma NothingPending(pending: seq<string>)
    requires pending == []
    ensures AsUser(pending) == [] && Faded(Replay([])) == [] && Faded(SpokenIn([])) == []
  {
  }

  lemma StoredIsRebuilt(steer: string)
    ensures Faded(Rebuilt(SteerStored(steer))) == [TextMessage(User, steer)]
    ensures Faded(Spoken(SteerStored(steer))) == []
  {
  }

  lemma DrainIsNoMessage(steers: seq<Message>)
    ensures Faded(Rebuilt(SteersDrained(steers))) == []
  {
  }

  /** Whatever a run meets, its steers can have been stored right before they were drained. */
  lemma {:induction false} EveryRunCanBeStored(log: seq<Effect>)
    requires forall i :: 0 <= i < |log| ==> !log[i].SteerStored?
    requires forall i :: 0 <= i < |log| && log[i].SteersDrained? ==> AreSteers(log[i].steers)
    ensures StoredRun(StoredAtDrains(log), log) && SaidAtOnce(0, StoredAtDrains(log))
  {
    hide Rebuilt;
    if log != [] {
      var (e, rest) := (log[0], log[1..]);
      EveryRunCanBeStored(rest);
      if e.SteersDrained? {
        DrainStored(e, StoredAtDrains(rest));
      } else {
        assert [] + [e] == [e];
        Headed(e, StoredAtDrains(rest));
      }
    }
  }

  lemma DrainStored(e: Effect, rest: seq<Effect>)
    requires e.SteersDrained? && AreSteers(e.steers) && Drained([], rest) && SaidAtOnce(0, rest)
    ensures var full := Stored(TextsOf(e.steers)) + [e] + rest;
      Drained([], full) && SaidAtOnce(0, full) && WithoutSteers(full) == [e] + WithoutSteers(rest)
  {
    hide Drained, SaidAtOnce, WithoutSteers, Stored;
    var (none, texts) := ([], TextsOf(e.steers));
    assert none + texts == texts;
    StoreThenDrain(none, texts, e, rest);
    assert Stored(texts) + [e] + rest == Stored(texts) + ([e] + rest);
  }

  lemma Headed(e: Effect, rest: seq<Effect>)
    requires !e.SteerStored? && !e.SteersDrained?
    ensures WithoutSteers([e] + rest) == [e] + WithoutSteers(rest)
    ensures Drained([], [e] + rest) <==> Drained([], rest)
    ensures SaidAtOnce(0, [e] + rest) <==> SaidAtOnce(0, rest)
  {
    assert ([e] + rest)[1..] == rest;
  }

  // ----- the roles of a transcript, which its shape tells

  function Roles(messages: seq<Message>): (r: seq<Role>)
    ensures |r| == |messages|
  {
    seq(|messages|, i requires 0 <= i < |messages| => messages[i].role)
  }

  lemma RolesConcat(p: seq<Message>, q: seq<Message>)
    ensures Roles(p + q) == Roles(p) + Roles(q)
  {
  }

  function Results(n: nat): (r: seq<Role>)
    ensures |r| == n
  {
    seq(n, i => Tool)
  }

  function BlockRoles(b: Block): seq<Role> {
    (match b.head case None => [] case Some(head) => [head.role]) + Results(|b.results|)
  }

  function ShapeRoles(shape: seq<Block>): seq<Role> {
    if shape == [] then [] else ShapeRoles(shape[..|shape| - 1]) + BlockRoles(shape[|shape| - 1])
  }

  lemma OneMoreBlock(shape: seq<Block>, b: Block)
    ensures ShapeRoles(shape + [b]) == ShapeRoles(shape) + BlockRoles(b)
  {
    assert (shape + [b])[..|shape|] == shape;
  }

  lemma OneMoreOfBlock(b: Block, key: ResultKey)
    ensures BlockRoles(Block(b.head, b.results + multiset{key})) == BlockRoles(b) + [Tool]
  {
    assert Results(|b.results| + 1) == Results(|b.results|) + [Tool];
  }

  lemma RolesOfResult(shape: seq<Block>, key: ResultKey)
    ensures ShapeRoles(AddResults(shape, multiset{key})) == ShapeRoles(shape) + [Tool]
  {
    hide ShapeRoles, BlockRoles;
    var n := |shape|;
    if n == 0 {
      NoRoles();
      OneMoreOfBlock(Block(None, multiset{}), key);
      OneMoreBlock([], Block(None, multiset{key}));
      assert multiset{} + multiset{key} == multiset{key};
      assert [] + [Block(None, multiset{key})] == [Block(None, multiset{key})];
    } else {
      var (front, last) := (shape[..n - 1], shape[n - 1]);
      OneMoreOfBlock(last, key);
      OneMoreBlock(front, last);
      OneMoreBlock(front, Block(last.head, last.results + multiset{key}));
      assert shape == front + [last];
      assert AddResults(shape, multiset{key}) == front + [Block(last.head, last.results + multiset{key})];
    }
  }

  lemma NoRoles()
    ensures ShapeRoles([]) == [] && BlockRoles(Block(None, multiset{})) == [] && Roles([]) == [] && Shape([]) == []
  {
  }

  lemma {:induction false} ShapeTellsRoles(messages: seq<Message>)
    ensures ShapeRoles(Shape(messages)) == Roles(messages)
  {
    hide Shape, AddResults, ShapeRoles;
    if messages == [] {
      NoRoles();
    } else {
      var (front, m) := (messages[..|messages| - 1], messages[|messages| - 1]);
      assert messages == front + [m];
      ShapeTellsRoles(front);
      ShapeAppend(front, m);
      RolesConcat(front, [m]);
      if m.role == Tool {
        RolesOfResult(Shape(front), Key(m));
      } else {
        OneMoreBlock(Shape(front), Block(Some(HeadOf(m)), multiset{}));
      }
    }
  }

  lemma FadedRoles(messages: seq<Message>)
    ensures Roles(Faded(messages)) == Roles(messages)
  {
  }

  // ----- steers that are said where they are stored

  /** No steer is stored before the user's own item; `stored` says whether one was. */
  predicate UserFirst(stored: bool, full: seq<Effect>)
    decreases |full|
  {
    full == [] || ((full[0].UserItem? ==> !stored) && UserFirst(stored || full[0].SteerStored?, full[1..]))
  }

  function Users(n: nat): (r: seq<Role>)
    ensures |r| == n
  {
    seq(n, i => User)
  }

  lemma SteerRoles(steers: seq<Message>, pending: seq<string>)
    requires |steers| == |pending| && forall i :: 0 <= i < |steers| ==> IsSteer(steers[i], pending[i])
    ensures Roles(steers) == Users(|pending|)
  {
  }

  lemma OneMoreUser(n: nat, rest: seq<Role>)
    ensures Users(n) + ([User] + rest) == Users(n + 1) + rest
  {
  }

  lemma HeadRoles(full: seq<Effect>)
    requires full != []
    ensures Roles(Replay(full)) == Roles(Rebuilt(full[0])) + Roles(Replay(full[1..]))
    ensures Roles(SpokenIn(full)) == Roles(Spoken(full[0])) + Roles(SpokenIn(full[1..]))
  {
    hide Replay, SpokenIn, Rebuilt, Spoken;
    ReadHead(full);
    RolesConcat(Rebuilt(full[0]), Replay(full[1..]));
    RolesConcat(Spoken(full[0]), SpokenIn(full[1..]));
  }

  /** A replay with the roles of what was said has every steer where it was said. */
  lemma {:induction false} RolesTellSaidAtOnce(pending: seq<string>, stored: bool, full: seq<Effect>)
    requires Drained(pending, full) && UserFirst(stored, full) && (pending != [] ==> stored)
    requires Users(|pending|) + Roles(Replay(full)) == Roles(SpokenIn(full))
    ensures SaidAtOnce(|pending|, full)
    decreases |full|
  {
    hide Replay, SpokenIn, Roles, Rebuilt, Users;
    if full == [] {
      NoMessages();
    } else {
      var (e, rest) := (full[0], full[1..]);
      HeadRoles(full);
      if e.SteerStored? {
        StoredRoles(e.steer);
        OneMoreUser(|pending|, Roles(Replay(rest)));
        RolesTellSaidAtOnce(pending + [e.steer], true, rest);
      } else if e.SteersDrained? {
        var none: seq<string> := [];
        SteerRoles(e.steers, pending);
        DrainRoles(e.steers);
        SameRest(Users(|pending|), Roles(Replay(rest)), Roles(SpokenIn(rest)));
        RolesTellSaidAtOnce(none, stored, rest);
      } else {
        OtherRoles(e);
        OtherStep(|pending|, Roles(Rebuilt(e)), Roles(Replay(rest)), Roles(SpokenIn(rest)));
        RolesTellSaidAtOnce(pending, stored, rest);
      }
    }
  }

  /** A message that is no user's comes before no steer. */
  lemma OtherStep(pending: nat, said: seq<Role>, replay: seq<Role>, spoken: seq<Role>)
    requires pending == 0 || said == [] || said[0] != User
    ensures Users(pending) + (said + replay) == said + spoken ==>
      Users(pending) + replay == spoken && (pending == 0 || said == [])
  {
    if pending == 0 {
      SameRest(said, replay, spoken);
      assert Users(0) + (said + replay) == said + replay;
    } else if said == [] {
      assert said + replay == replay && said + spoken == spoken;
    } else {
      assert (Users(pending) + (said + replay))[0] == User && (said + spoken)[0] == said[0];
    }
  }

  lemma SameRest(front: seq<Role>, p: seq<Role>, q: seq<Role>)
    ensures [] + p == p && [] + q == q && Users(0) == []
    ensures front + p == front + q ==> p == q
  {
    if front + p == front + q {
      assert p == (front + p)[|front|..] && q == (front + q)[|front|..];
    }
  }

  lemma NoMessages()
    ensures Roles(Replay([])) == [] && Roles(SpokenIn([])) == []
  {
  }

  lemma StoredRoles(steer: string)
    ensures Roles(Rebuilt(SteerStored(steer))) == [User] && Roles(Spoken(SteerStored(steer))) == []
  {
  }

  lemma DrainRoles(steers: seq<Message>)
    ensures Roles(Rebuilt(SteersDrained(steers))) == []
  {
  }

  lemma OtherRoles(e: Effect)
    requires !e.SteerStored? && !e.SteersDrained?
    ensures Roles(Spoken(e)) == Roles(Rebuilt(e)) && (Roles(Rebuilt(e)) == [] <==> Rebuilt(e) == [])
    ensures Rebuilt(e) != [] && !e.UserItem? ==> Roles(Rebuilt(e))[0] != User
  {
  }

  /** What is stored of a run, but for what the rows do not keep, has this shape. */
  ghost predicate StoredAsSaid(full: seq<Effect>) {
    StoredShape(Replay(full)) == StoredShape(SpokenIn(full))
  }

  /**
    What is stored of a run has the shape of what was said in it exactly when nothing is said
    between the moment a steer is stored and its drain, and none is left undrained.
   */
  lemma StoredAsSaidExactly(full: seq<Effect>)
    requires Drained([], full)
    ensures SaidAtOnce(0, full) ==> StoredAsSaid(full)
    ensures UserFirst(false, full) ==> (StoredAsSaid(full) <==> SaidAtOnce(0, full))
    ensures UserFirst(false, full) ==> (Roles(Replay(full)) == Roles(SpokenIn(full)) <==> SaidAtOnce(0, full))
  {
    hide Shape, Replay, SpokenIn, Roles, ShapeRoles, Faded;
    var none: seq<string> := [];
    assert AsUser(none) + Faded(Replay(full)) == Faded(Replay(full));
    assert Users(|none|) + Roles(Replay(full)) == Roles(Replay(full));
    FadedRoles(Replay(full));
    FadedRoles(SpokenIn(full));
    ShapeTellsRoles(Faded(Replay(full)));
    ShapeTellsRoles(Faded(SpokenIn(full)));
    if SaidAtOnce(0, full) {
      SaidAtOnceReplay(none, full);
    } else if UserFirst(false, full) && Roles(Replay(full)) == Roles(SpokenIn(full)) {
      RolesTellSaidAtOnce(none, false, full);
    }
  }

  // ----- a steer inside a batch

  /** The trace of one call that passes without asking and completes. */
  lemma OneCallTrace(call: ToolCall, f: Facts, o: Outcome)
    requires Refusal(f) == None && o.call == call && Simple(o)
    ensures var finish := [ToolReturned(0, o.result), ToolCompleted(o)];
      BatchTrace([call], BatchRecord([f], [o], None, [0], LaunchTrace([call], [f]) + finish, finish))
  {
    hide LaunchTrace, Outcomes, Refusal, StageFrom, ResultEffects, PlansTold, AllTruthful;
    var (launch, finish) := (LaunchTrace([call], [f]), [ToolReturned(0, o.result), ToolCompleted(o)]);
    AllowedReportsNothing([call], [f]);
    TwoEffects(0, o);
    FinishReads(o);
    LaunchStaysInBatch([call], [f]);
    TruthfulParts(launch, finish);
    StageConcat(Batch, launch, finish);
    ReadConcat(launch, finish);
    var (results, order) := ([o], [0]);
    assert [o] == seq(|order|, k requires 0 <= k < |order| => results[order[k]]);
    assert finish[0] == ToolReturned(0, o.result);
  }

  lemma FinishReads(o: Outcome)
    requires Simple(o)
    ensures var finish := [ToolReturned(0, o.result), ToolCompleted(o)];
      ResultEffects(finish) && StageFrom(Batch, finish) == Batch && PlansTold(finish, 2)
  {
    hide PlansTold;
    NoPlans([ToolReturned(0, o.result), ToolCompleted(o)]);
    ToolsStayInBatch([ToolReturned(0, o.result), ToolCompleted(o)]);
  }

  /**
    A steer that is accepted while a tool runs: the only report names the only call, and what the
    store gives back is not well-formed.
   */
  lemma SteerInsideBatch() returns (m: Message, b: BatchRecord, full: seq<Effect>)
    ensures HasCalls(m) && BatchTrace(m.toolCalls, b)
    ensures StoredRun(full, [AssistantItem(m.content, m.toolCalls)] + b.log)
    ensures NoCompaction(full)
    ensures AnsweredInOrder(full) && !Undisturbed(full) && !WellFormed(Replay(full))
  {
    hide BatchTrace, Replay, Outcomes, WellFormed, AnsweredInOrder, Undisturbed, LaunchTrace, WithoutSteers, Drained,
      NoCompaction;
    var call := ToolCall("call-1", "run_command", "{}");
    var f := Facts(true, true, false, false, None, None, None, Allow, false);
    var o := Outcome(call, ToolResult(false, "", "done", [], None));
    var (launch, finish) := (LaunchTrace([call], [f]), [ToolReturned(0, o.result), ToolCompleted(o)]);
    m := Message(Assistant, None, [], [call], None, None);
    b := BatchRecord([f], [o], None, [0], launch + finish, finish);
    OneCallTrace(call, f, o);
    BatchKinds([call], b);
    SettledTurn(m, b);
    var item := AssistantItem(None, [call]);
    full := [item] + (launch + ([SteerStored("wait")] + finish));
    AllowedReportsNothing([call], [f]);
    TwoEffects(0, o);
    BatchParts(b.log, launch, finish);
    SteerBetween(item, launch, "wait", finish);
    NothingCompacted(item, launch, "wait", finish);
    Interrupted(m, full, launch, finish);
    OwedWithoutSteers(full, 0);
    ReplayWellFormedExactly(full);
  }

  lemma BatchParts(log: seq<Effect>, p: seq<Effect>, q: seq<Effect>)
    requires BatchEffects(log) && log == p + q
    ensures BatchEffects(p) && BatchEffects(q)
  {
    assert forall i :: 0 <= i < |p| ==> p[i] == log[i];
    assert forall i :: 0 <= i < |q| ==> q[i] == log[|p| + i];
  }

  lemma {:induction false} OwnEffects(log: seq<Effect>)
    requires BatchEffects(log)
    ensures WithoutSteers(log) == log && AnsweredInOrder(log)
  {
    if log != [] {
      OwnEffects(log[1..]);
    }
  }

  lemma {:induction false} NothingDrained(pending: seq<string>, p: seq<Effect>, q: seq<Effect>)
    requires BatchEffects(p)
    ensures Drained(pending, p) && (Drained(pending, p + q) <==> Drained(pending, q))
    ensures AnsweredInOrder(p + q) <==> AnsweredInOrder(q)
  {
    if p == [] {
      assert p + q == q;
    } else {
      assert (p + q)[0] == p[0] && (p + q)[1..] == p[1..] + q;
      NothingDrained(pending, p[1..], q);
    }
  }

  lemma WithoutSteersConcat(p: seq<Effect>, q: seq<Effect>)
    ensures WithoutSteers(p + q) == WithoutSteers(p) + WithoutSteers(q)
  {
    ReadParts(p, q, OwnEffect);
  }

  lemma SteerFirst(steer: string, q: seq<Effect>)
    requires BatchEffects(q)
    ensures var back := [SteerStored(steer)] + q;
      && WithoutSteers(back) == q && Drained([], back) && AnsweredInOrder(back)
      && Outcomes(back) == Outcomes(q) && Replay(back) == [TextMessage(User, steer)] + Replay(q)
  {
    hide Outcomes, Replay;
    var back := [SteerStored(steer)] + q;
    assert back[0] == SteerStored(steer) && back[1..] == q;
    OwnEffects(q);
    NothingDrained([] + [steer], q, []);
    ReplayHead(back, 0);
  }

  lemma ItemFirst(item: Effect, rest: seq<Effect>)
    requires item.AssistantItem?
    ensures var full := [item] + rest;
      && WithoutSteers(full) == [item] + WithoutSteers(rest)
      && (Drained([], full) <==> Drained([], rest))
      && (AnsweredInOrder(full) <==> Named(item.calls, Outcomes(rest)) && AnsweredInOrder(rest))
      && Replay(full) == Rebuilt(item) + Replay(rest)
  {
    hide Outcomes, Replay, Named;
    var full := [item] + rest;
    assert full[0] == item && full[1..] == rest;
    ReplayHead(full, 0);
  }

  /** A steer stored in the middle of a batch. */
  lemma SteerBetween(item: Effect, p: seq<Effect>, steer: string, q: seq<Effect>)
    requires item.AssistantItem? && BatchEffects(p) && BatchEffects(q)
    ensures var full := [item] + (p + ([SteerStored(steer)] + q));
      && StoredRun(full, [item] + (p + q))
      && (AnsweredInOrder(full) <==> Named(item.calls, Outcomes(p) + Outcomes(q)))
      && Replay(full) == Rebuilt(item) + (Replay(p) + ([TextMessage(User, steer)] + Replay(q)))
  {
    hide Outcomes, Replay, WithoutSteers, Drained, AnsweredInOrder, Named;
    var back := [SteerStored(steer)] + q;
    SteerFirst(steer, q);
    NothingDrained([], p, back);
    OwnEffects(p);
    WithoutSteersConcat(p, back);
    ReadConcat(p, back);
    ItemFirst(item, p + back);
  }

  lemma NothingCompacted(item: Effect, p: seq<Effect>, steer: string, q: seq<Effect>)
    requires item.AssistantItem? && BatchEffects(p) && BatchEffects(q)
    ensures NoCompaction([item] + (p + ([SteerStored(steer)] + q)))
  {
    ConcatNoCompaction([SteerStored(steer)], q);
    ConcatNoCompaction(p, [SteerStored(steer)] + q);
    ConcatNoCompaction([item], p + ([SteerStored(steer)] + q));
  }

  lemma Interrupted(m: Message, full: seq<Effect>, p: seq<Effect>, q: seq<Effect>)
    requires HasCalls(m) && BatchEffects(p) && Outcomes(p) == []
    requires Replay(full) == [m] + (Replay(p) + ([TextMessage(User, "wait")] + Replay(q)))
    ensures !WellFormed(Replay(full))
  {
    hide Outcomes, Replay, WellFormed;
    BatchReadings(p);
    var rest := [TextMessage(User, "wait")] + Replay(q);
    assert Replay(full) == [m] + rest;
    ExchangeFirst(m, rest);
    assert rest[0].role == User;
  }
}
