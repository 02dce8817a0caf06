/**
  What a connect or a disconnect that nobody interrupts makes of the registry: exactly the tools
  of its own server are replaced, and a name that is taken stays with its owner.
 */
module RegistryConnect {
  import opened Options
  import opened SharedRegistry

  function Repeat(step: Step, n: nat): seq<Step> {
    if n == 0 then [] else [step] + Repeat(step, n - 1)
  }

  lemma {:induction false} RepeatLast(step: Step, n: nat)
    ensures Repeat(step, n) + [step] == Repeat(step, n + 1)
  {
    if n > 0 {
      RepeatLast(step, n - 1);
      assert Repeat(step, n) + [step] == [step] + (Repeat(step, n - 1) + [step]);
    }
  }

  lemma {:induction false} RunParts(s: State, p: seq<Step>, q: seq<Step>)
    ensures Run(s, p + q) == Run(Run(s, p), q)
    decreases |p|
  {
    hide Apply;
    if p == [] {
      assert p + q == q;
    } else {
      assert (p + q)[1..] == p[1..] + q;
      RunParts(Apply(s, p[0]), p[1..], q);
    }
  }

  lemma RunFirst(s: State, step: Step, rest: seq<Step>)
    ensures Run(s, [step] + rest) == Run(Apply(s, step), rest)
  {
    assert ([step] + rest)[1..] == rest;
  }

  /** The registry without some names. */
  function Without(registry: map<string, Owner>, names: seq<string>): map<string, Owner> {
    map n | n in registry && n !in names :: registry[n]
  }

  lemma WithoutFirst(registry: map<string, Owner>, names: seq<string>)
    requires names != []
    ensures Without(registry - {names[0]}, names[1..]) == Without(registry, names)
  {
    assert names == [names[0]] + names[1..];
  }

  lemma {:induction false} DropAlone(s: State, t: nat)
    requires t in s.tasks && s.tasks[t].Dropping?
    ensures var task := s.tasks[t];
      Run(s, Repeat(DropOne(t), |task.names| + 1))
        == s.(registry := Without(s.registry, task.names), tasks := s.tasks[t := Adding(task.server, task.tools, [])])
    decreases |s.tasks[t].names|
  {
    hide Without;
    var task := s.tasks[t];
    var next := Apply(s, DropOne(t));
    RunFirst(s, DropOne(t), Repeat(DropOne(t), |task.names|));
    if task.names == [] {
      assert Without(s.registry, []) == s.registry by { WithoutNothing(s.registry); }
    } else {
      DropAlone(next, t);
      WithoutFirst(s.registry, task.names);
      assert next.tasks[t := Adding(task.server, task.tools, [])] == s.tasks[t := Adding(task.server, task.tools, [])];
    }
  }

  lemma WithoutNothing(registry: map<string, Owner>)
    ensures Without(registry, []) == registry
  {
  }

  lemma {:induction false} RemoveAlone(s: State, t: nat)
    requires t in s.tasks && s.tasks[t].Removing?
    ensures Run(s, Repeat(RemoveOne(t), |s.tasks[t].names| + 1))
         == s.(registry := Without(s.registry, s.tasks[t].names), tasks := s.tasks - {t})
    decreases |s.tasks[t].names|
  {
    hide Without;
    var task := s.tasks[t];
    var next := Apply(s, RemoveOne(t));
    RunFirst(s, RemoveOne(t), Repeat(RemoveOne(t), |task.names|));
    if task.names == [] {
      assert Without(s.registry, []) == s.registry by { WithoutNothing(s.registry); }
    } else {
      RemoveAlone(next, t);
      WithoutFirst(s.registry, task.names);
      assert next.tasks - {t} == s.tasks - {t};
    }
  }

  /** A usable name that nobody holds. */
  predicate Free(registry: map<string, Owner>, n: string) {
    n != "" && n !in registry
  }

  /** `f` is `s` after the tools in `left` were offered to the registry by task `t`. */
  ghost predicate Added(s: State, f: State, t: nat)
    requires t in s.tasks && s.tasks[t].Adding?
  {
    var task := s.tasks[t];
    && t in f.tasks && f.tasks[t].Adding?
    && f == s.(registry := f.registry, tasks := s.tasks[t := Adding(task.server, [], f.tasks[t].names)])
    && (forall n :: n in f.tasks[t].names <==> n in task.names || (n in task.left && Free(s.registry, n)))
    && (forall n :: n in s.registry ==> n in f.registry && f.registry[n] == s.registry[n])
    && (forall n :: n in f.registry && n !in s.registry ==> f.registry[n] == Mcp(task.server))
    && (forall n :: n in f.registry <==> n in s.registry || (n in task.left && Free(s.registry, n)))
  }

  lemma {:induction false} AddAlone(s: State, t: nat)
    requires t in s.tasks && s.tasks[t].Adding?
    ensures Added(s, Run(s, Repeat(AddOne(t), |s.tasks[t].left|)), t)
    decreases |s.tasks[t].left|
  {
    hide Added, Run;
    var task := s.tasks[t];
    if task.left == [] {
      NothingAdded(s, t);
    } else {
      var next := Apply(s, AddOne(t));
      RunFirst(s, AddOne(t), Repeat(AddOne(t), |task.left| - 1));
      AddAlone(next, t);
      AddedOneMore(s, Run(next, Repeat(AddOne(t), |task.left| - 1)), t);
    }
  }

  lemma NothingAdded(s: State, t: nat)
    requires t in s.tasks && s.tasks[t].Adding? && s.tasks[t].left == []
    ensures Added(s, Run(s, Repeat(AddOne(t), 0)), t)
  {
    assert s.tasks == s.tasks[t := s.tasks[t]];
  }

  /** What offering the next tool does. */
  lemma AddOneDoes(s: State, t: nat)
    requires t in s.tasks && s.tasks[t].Adding? && s.tasks[t].left != []
    ensures var task, name := s.tasks[t], s.tasks[t].left[0];
      Apply(s, AddOne(t)) ==
        if Free(s.registry, name)
        then s.(registry := s.registry[name := Mcp(task.server)],
                tasks := s.tasks[t := Adding(task.server, task.left[1..], task.names + [name])])
        else s.(tasks := s.tasks[t := Adding(task.server, task.left[1..], task.names)])
  {
  }

  lemma AddedOneMore(s: State, f: State, t: nat)
    requires t in s.tasks && s.tasks[t].Adding? && s.tasks[t].left != []
    requires t in Apply(s, AddOne(t)).tasks && Apply(s, AddOne(t)).tasks[t].Adding?
    requires Added(Apply(s, AddOne(t)), f, t)
    ensures Added(s, f, t)
  {
    hide Apply, Added;
    var task := s.tasks[t];
    AddOneDoes(s, t);
    if Free(s.registry, task.left[0]) {
      AddedFree(s, f, t);
    } else {
      AddedTaken(s, f, t);
    }
  }

  lemma AddedFree(s: State, f: State, t: nat)
    requires t in s.tasks && s.tasks[t].Adding? && s.tasks[t].left != [] && Free(s.registry, s.tasks[t].left[0])
    requires var task := s.tasks[t];
      Added(s.(registry := s.registry[task.left[0] := Mcp(task.server)],
               tasks := s.tasks[t := Adding(task.server, task.left[1..], task.names + [task.left[0]])]), f, t)
    ensures Added(s, f, t)
  {
    var name := s.tasks[t].left[0];
    assert forall n :: n in s.tasks[t].left <==> n == name || n in s.tasks[t].left[1..];
  }

  lemma AddedTaken(s: State, f: State, t: nat)
    requires t in s.tasks && s.tasks[t].Adding? && s.tasks[t].left != [] && !Free(s.registry, s.tasks[t].left[0])
    requires var task := s.tasks[t];
      Added(s.(tasks := s.tasks[t := Adding(task.server, task.left[1..], task.names)]), f, t)
    ensures Added(s, f, t)
  {
    var name := s.tasks[t].left[0];
    assert forall n :: n in s.tasks[t].left <==> n == name || n in s.tasks[t].left[1..];
  }

  /** The tool of this name is `o`'s. */
  predicate Holds(s: State, n: string, o: Owner) {
    n in s.registry && s.registry[n] == o
  }

  function ConnectSteps(s: State, t: nat, server: string, tools: seq<string>): seq<Step> {
    [StartConnect(t, server, tools)]
    + (Repeat(DropOne(t), |NamesOf(s, server)| + 1) + (Repeat(AddOne(t), |tools|) + [Record(t)]))
  }

  function DisconnectSteps(s: State, t: nat, server: string): seq<Step> {
    [TakeNames(t, server)] + Repeat(RemoveOne(t), |NamesOf(s, server)| + 1)
  }

  /** At rest the tools of a server are its recorded names. */
  lemma AtRest(s: State, server: string)
    requires Inv(s) && s.tasks == map[]
    ensures forall n :: n in NamesOf(s, server) <==> n in s.registry && s.registry[n] == Mcp(server)
  {
    forall n
      ensures n in NamesOf(s, server) <==> n in s.registry && s.registry[n] == Mcp(server)
    {
      assert n in NamesOf(s, server) <==> n in Claims(s, Recorded(server));
      if n in s.registry && s.registry[n] == Mcp(server) {
        var h :| n in Claims(s, h);
        assert h.Recorded?;
      }
    }
  }

  lemma ConnectRuns(s: State, t: nat, server: string, tools: seq<string>) returns (dropped: State, added: State)
    requires s.tasks == map[] && s.lock == None
    ensures dropped == State(Without(s.registry, NamesOf(s, server)), s.registered - {server}, Some(t),
      map[t := Adding(server, tools, [])])
    ensures Added(dropped, added, t)
    ensures Run(s, ConnectSteps(s, t, server, tools))
         == State(added.registry, (s.registered - {server})[server := added.tasks[t].names], None, map[])
  {
    hide Without, Added;
    var started := Apply(s, StartConnect(t, server, tools));
    var rest := Repeat(AddOne(t), |tools|) + [Record(t)];
    RunFirst(s, StartConnect(t, server, tools), Repeat(DropOne(t), |NamesOf(s, server)| + 1) + rest);
    RunParts(started, Repeat(DropOne(t), |NamesOf(s, server)| + 1), rest);
    DropAlone(started, t);
    dropped := started.(
      registry := Without(s.registry, NamesOf(s, server)), tasks := started.tasks[t := Adding(server, tools, [])]);
    RunParts(dropped, Repeat(AddOne(t), |tools|), [Record(t)]);
    AddAlone(dropped, t);
    added := Run(dropped, Repeat(AddOne(t), |tools|));
    RunFirst(added, Record(t), []);
    RecordAdded(dropped, added, t);
    assert [Record(t)] + [] == [Record(t)];
  }

  lemma RecordAdded(s: State, f: State, t: nat)
    requires t in s.tasks && s.tasks[t].Adding? && Added(s, f, t) && s.tasks.Keys == {t}
    ensures Apply(f, Record(t)) == State(f.registry, s.registered[s.tasks[t].server := f.tasks[t].names], None, map[])
  {
    assert f.tasks - {t} == map[];
  }

  /** `f` is `s` after a connect: the tools of `server` are the usable offered names, everybody else
      has what they had. */
  ghost predicate Replaced(s: State, f: State, server: string, tools: seq<string>) {
    && f.tasks == map[] && f.lock == None
    && (forall n :: n in NamesOf(f, server) <==>
          n in tools && n != "" && (n !in s.registry || Holds(s, n, Mcp(server))))
    && (forall n :: Holds(f, n, Mcp(server)) <==> n in NamesOf(f, server))
    && (forall n, o :: o != Mcp(server) ==> (Holds(f, n, o) <==> Holds(s, n, o)))
    && (forall other :: other != server ==> NamesOf(f, other) == NamesOf(s, other))
  }

  ghost predicate Removed(s: State, f: State, server: string) {
    && f.tasks == map[] && f.lock == None && f.registered == s.registered - {server}
    && forall n, o :: Holds(f, n, o) <==> Holds(s, n, o) && o != Mcp(server)
  }

  /**
    An uninterrupted connect leaves the server with exactly the offered tools whose names are not
    empty and not somebody else's, and everybody else with what they had.
   */
  lemma ConnectReplacesExactly(s: State, t: nat, server: string, tools: seq<string>)
    requires Inv(s) && s.tasks == map[] && s.lock == None
    ensures Replaced(s, Run(s, ConnectSteps(s, t, server, tools)), server, tools)
  {
    hide Run, Apply, ConnectSteps, Inv;
    AtRest(s, server);
    var dropped, added := ConnectRuns(s, t, server, tools);
  }

  /** An uninterrupted disconnect removes exactly the tools of its server. */
  lemma DisconnectRemovesExactly(s: State, t: nat, server: string)
    requires Inv(s) && s.tasks == map[] && s.lock == None
    ensures Removed(s, Run(s, DisconnectSteps(s, t, server)), server)
  {
    hide Run, Inv;
    AtRest(s, server);
    RunFirst(s, TakeNames(t, server), Repeat(RemoveOne(t), |NamesOf(s, server)| + 1));
    RemoveAlone(Apply(s, TakeNames(t, server)), t);
  }

  // ----- the steps that one task takes among those of others

  function Own(steps: seq<Step>, t: nat): seq<Step> {
    if steps == [] then []
    else
      var last := steps[|steps| - 1];
      Own(steps[..|steps| - 1], t) + if IsStepOf(last, t) then [last] else []
  }

  lemma OwnAppend(steps: seq<Step>, step: Step, t: nat)
    ensures Own(steps + [step], t) == Own(steps, t) + if IsStepOf(step, t) then [step] else []
  {
    assert (steps + [step])[..|steps|] == steps;
  }

  /** The steps since `before`, when one task took all of them. */
  lemma {:induction false} AllOwn(before: seq<Step>, steps: seq<Step>, t: nat)
    requires forall i :: 0 <= i < |steps| ==> IsStepOf(steps[i], t)
    ensures Own(before + steps, t) == Own(before, t) + steps
  {
    hide Own, IsStepOf;
    if steps == [] {
      assert before + steps == before;
    } else {
      var (front, last) := (steps[..|steps| - 1], steps[|steps| - 1]);
      AllOwn(before, front, t);
      OwnAppend(before + front, last, t);
      assert before + steps == before + front + [last];
    }
  }

  /** Nobody else takes a step after those in `before`. */
  ghost predicate Alone(before: seq<Step>, trace: seq<Step>, t: nat) {
    before <= trace && forall i :: |before| <= i < |trace| ==> IsStepOf(trace[i], t)
  }

  lemma AloneRuns(before: seq<Step>, trace: seq<Step>, t: nat, own: seq<Step>)
    requires Alone(before, trace, t) && Own(trace, t) == Own(before, t) + own
    ensures Run(EMPTY, trace) == Run(Run(EMPTY, before), own)
  {
    hide Run, Own;
    var steps := trace[|before|..];
    assert trace == before + steps;
    AllOwn(before, steps, t);
    assert (Own(before, t) + steps)[|Own(before, t)|..] == steps;
    assert (Own(before, t) + own)[|Own(before, t)|..] == own;
    RunParts(EMPTY, before, own);
  }
}
