/**
  The operator's MCP admin, one method for each of its operations, with everyone else running
  between any two of its steps.
 */
module McpAdmin {
  import opened Options
  import opened SharedRegistry
  import opened RegistryConnect

  /** At some moment after the first `from` steps the registry did not hold the name. */
  ghost predicate WasOut(trace: seq<Step>, from: nat, n: string) {
    exists k :: from < k <= |trace| && n !in Run(EMPTY, trace[..k]).registry
  }

  lemma StillWasOut(trace: seq<Step>, later: seq<Step>, from: nat, n: string)
    requires WasOut(trace, from, n) && trace <= later
    ensures WasOut(later, from, n)
  {
    hide Run;
    var k :| from < k <= |trace| && n !in Run(EMPTY, trace[..k]).registry;
    assert later[..k] == trace[..k];
  }

  lemma OutNow(trace: seq<Step>, from: nat, n: string)
    requires from < |trace| && n !in Run(EMPTY, trace).registry
    ensures WasOut(trace, from, n)
  {
    hide Run;
    assert trace[..|trace|] == trace;
  }

  ghost predicate ForeignKept(before: map<string, Owner>, after: map<string, Owner>) {
    forall n :: n in before && before[n] == Foreign ==> n in after && after[n] == Foreign
  }

  lemma ForeignAllStay(s: State, step: Step)
    requires Inv(s)
    ensures ForeignKept(s.registry, Apply(s, step).registry)
  {
    hide Inv, Apply;
    forall n | n in s.registry && s.registry[n] == Foreign
      ensures n in Apply(s, step).registry && Apply(s, step).registry[n] == Foreign
    {
      ForeignStays(s, step, n);
    }
  }

  lemma WasOutSince(trace: seq<Step>, later: nat, from: nat, n: string)
    requires WasOut(trace, later, n) && from <= later
    ensures WasOut(trace, from, n)
  {
    hide Run;
  }

  /** A name was offered at its turn, and the registry held it already. */
  ghost predicate Refused(trace: seq<Step>, from: nat, t: nat, n: string) {
    exists k :: from <= k < |trace| && trace[k] == AddOne(t) && Offers(Run(EMPTY, trace[..k]), t, n)
      && n in Run(EMPTY, trace[..k]).registry
  }

  /** The task is about to offer a name that it has not registered before. */
  predicate Offers(s: State, t: nat, n: string) {
    && t in s.tasks && s.tasks[t].Adding? && s.tasks[t].left != [] && s.tasks[t].left[0] == n
    && n !in s.tasks[t].names
  }

  lemma StillRefused(trace: seq<Step>, later: seq<Step>, from: nat, t: nat, n: string)
    requires Refused(trace, from, t, n) && trace <= later
    ensures Refused(later, from, t, n)
  {
    hide Run, Offers;
    var k :| from <= k < |trace| && trace[k] == AddOne(t) && Offers(Run(EMPTY, trace[..k]), t, n)
      && n in Run(EMPTY, trace[..k]).registry;
    assert later[..k] == trace[..k];
  }

  lemma RefusedNow(trace: seq<Step>, from: nat, t: nat, n: string)
    requires from <= |trace| && Offers(Run(EMPTY, trace), t, n) && n in Run(EMPTY, trace).registry
    ensures Refused(trace + [AddOne(t)], from, t, n)
  {
    hide Run, Offers;
    var later := trace + [AddOne(t)];
    assert later[..|trace|] == trace && later[|trace|] == AddOne(t);
  }

  lemma RecordedIsPresent(s: State, server: string)
    requires Inv(s)
    ensures forall n :: n in NamesOf(s, server) ==> n in s.registry && s.registry[n] == Mcp(server)
  {
    assert Claims(s, Recorded(server)) == NamesOf(s, server);
  }

  lemma RefusedSince(trace: seq<Step>, later: nat, from: nat, t: nat, n: string)
    requires Refused(trace, later, t, n) && from <= later
    ensures Refused(trace, from, t, n)
  {
    hide Run, Offers;
  }

  lemma RefusedStay(trace: seq<Step>, later: seq<Step>, from: nat, t: nat)
    requires trace <= later
    ensures forall n :: Refused(trace, from, t, n) ==> Refused(later, from, t, n)
  {
    hide Refused;
    forall n | Refused(trace, from, t, n)
      ensures Refused(later, from, t, n)
    {
      StillRefused(trace, later, from, t, n);
    }
  }

  /** How a task drops a name. */
  function DropStep(task: Task, t: nat): Step {
    if task.Dropping? then DropOne(t) else RemoveOne(t)
  }

  lemma RepeatNext(own: seq<Step>, step: Step, n: nat)
    requires n > 0
    ensures own + Repeat(step, n) == own + [step] + Repeat(step, n - 1)
  {
    var rest := Repeat(step, n - 1);
    assert own + ([step] + rest) == own + [step] + rest;
  }

  /** A connect that nobody interrupts. */
  lemma ConnectedAlone(before: seq<Step>, trace: seq<Step>, t: nat, server: string, tools: seq<string>)
    requires Inv(Run(EMPTY, before)) && Run(EMPTY, before).lock == None
    requires Own(trace, t) == Own(before, t) + ConnectSteps(Run(EMPTY, before), t, server, tools)
    ensures Run(EMPTY, before).tasks == map[] && Alone(before, trace, t) ==>
      Replaced(Run(EMPTY, before), Run(EMPTY, trace), server, tools)
  {
    hide Run, Own, Inv, ConnectSteps, Replaced;
    var s := Run(EMPTY, before);
    if s.tasks == map[] && Alone(before, trace, t) {
      AloneRuns(before, trace, t, ConnectSteps(s, t, server, tools));
      ConnectReplacesExactly(s, t, server, tools);
    }
  }

  lemma DisconnectedAlone(before: seq<Step>, trace: seq<Step>, t: nat, server: string)
    requires Inv(Run(EMPTY, before)) && Run(EMPTY, before).lock == None
    requires Own(trace, t) == Own(before, t) + DisconnectSteps(Run(EMPTY, before), t, server)
    ensures Run(EMPTY, before).tasks == map[] && Alone(before, trace, t) ==>
      Removed(Run(EMPTY, before), Run(EMPTY, trace), server)
  {
    hide Run, Own, Inv, DisconnectSteps, Removed;
    var s := Run(EMPTY, before);
    if s.tasks == map[] && Alone(before, trace, t) {
      AloneRuns(before, trace, t, DisconnectSteps(s, t, server));
      DisconnectRemovesExactly(s, t, server);
    }
  }

  class CliMcpAdmin {
    var registry: map<string, Owner>
    var registered: map<string, seq<string>>
    var lock: Option<nat>
    var tasks: map<nat, Task>
    ghost var trace: seq<Step>  // every step so far, those of others included

    function Abstract(): State
      reads this
    {
      State(registry, registered, lock, tasks)
    }

    ghost predicate Valid()
      reads this
    {
      Abstract() == Run(EMPTY, trace) && Inv(Abstract())
    }

    constructor ()
      ensures Valid() && Abstract() == EMPTY
    {
      registry, registered, lock, tasks, trace := map[], map[], None, map[], [];
      EmptyInv();
    }

    /** Writes a step down that the fields are about to take. */
    ghost method Mark(me: nat, step: Step)
      requires Valid()
      modifies this`trace
      ensures trace == old(trace) + [step] && Run(EMPTY, trace) == Apply(Abstract(), step)
      ensures Inv(Apply(Abstract(), step)) && ForeignKept(registry, Apply(Abstract(), step).registry)
      ensures Own(trace, me) == old(Own(trace, me)) + if IsStepOf(step, me) then [step] else []
    {
      hide Inv, Apply, Run, Own;
      RunAppend(EMPTY, trace, step);
      ApplyKeepsInv(Abstract(), step);
      ForeignAllStay(Abstract(), step);
      OwnAppend(trace, step, me);
      trace := trace + [step];
    }

    /** Any number of steps of other tasks and of foreign code. */
    method Others(me: nat)
      requires Valid()
      modifies this
      ensures Valid() && old(trace) <= trace && ForeignKept(old(registry), registry)
      ensures Own(trace, me) == old(Own(trace, me))
      ensures old(me in tasks) ==> me in tasks && tasks[me] == old(tasks)[me]
      ensures old(lock) == Some(me) ==> lock == Some(me) && registered == old(registered)
    {
      hide Inv, Apply, Run, Own;
      var steps: seq<Step> := *;
      for i := 0 to |steps|
        invariant Valid() && old(trace) <= trace && ForeignKept(old(registry), registry)
        invariant Own(trace, me) == old(Own(trace, me))
        invariant old(me in tasks) ==> me in tasks && tasks[me] == old(tasks)[me]
        invariant old(lock) == Some(me) ==> lock == Some(me) && registered == old(registered)
      {
        if IsStepOf(steps[i], me) {
          continue;
        }
        var after := Apply(Abstract(), steps[i]);
        OthersStep(Abstract(), steps[i], me);
        Mark(me, steps[i]);
        registry, registered, lock, tasks := after.registry, after.registered, after.lock, after.tasks;
      }
    }

    /** Removes the names of a task from the registry, one at a time. */
    method DropAll(me: nat)
      requires Valid() && me in tasks && !tasks[me].Adding?
      modifies this
      ensures Valid() && old(trace) <= trace && ForeignKept(old(registry), registry)
      ensures Own(trace, me) == old(Own(trace, me) + Repeat(DropStep(tasks[me], me), |tasks[me].names|))
      ensures me in tasks && tasks[me].names == [] && tasks[me].server == old(tasks)[me].server
      ensures tasks[me].Dropping? == old(tasks)[me].Dropping? && !tasks[me].Adding?
      ensures tasks[me].Dropping? ==> tasks[me].tools == old(tasks)[me].tools
      ensures old(lock) == Some(me) ==> lock == Some(me) && registered == old(registered)
      ensures forall n :: n in old(tasks)[me].names ==> WasOut(trace, |old(trace)|, n)
    {
      hide Inv, Run, WasOut, Own;
      ghost var step := DropStep(tasks[me], me);
      Others(me);
      while tasks[me].names != []
        invariant Valid() && old(trace) <= trace && ForeignKept(old(registry), registry)
        invariant me in tasks && tasks[me].server == old(tasks)[me].server
        invariant tasks[me].Dropping? == old(tasks)[me].Dropping? && !tasks[me].Adding?
        invariant tasks[me].Dropping? ==> tasks[me].tools == old(tasks)[me].tools
        invariant Own(trace, me) + Repeat(step, |tasks[me].names|)
          == old(Own(trace, me) + Repeat(DropStep(tasks[me], me), |tasks[me].names|))
        invariant old(lock) == Some(me) ==> lock == Some(me) && registered == old(registered)
        invariant forall n :: n in old(tasks)[me].names ==> n in tasks[me].names || WasOut(trace, |old(trace)|, n)
        decreases |tasks[me].names|
      {
        RepeatNext(Own(trace, me), step, |tasks[me].names|);
        DropFirst(me, |old(trace)|);
        ghost var before := trace;
        Others(me);
        forall n | n in old(tasks)[me].names && n !in tasks[me].names
          ensures WasOut(trace, |old(trace)|, n)
        {
          StillWasOut(before, trace, |old(trace)|, n);
        }
      }
    }

    /** The first name of a task leaves the registry. */
    method DropFirst(me: nat, ghost from: nat)
      requires Valid() && me in tasks && !tasks[me].Adding? && tasks[me].names != [] && from <= |trace|
      modifies this`registry, this`tasks, this`trace
      ensures Valid() && old(trace) <= trace && ForeignKept(old(registry), registry) && me in tasks
      ensures Own(trace, me) == old(Own(trace, me)) + [DropStep(old(tasks)[me], me)]
      ensures tasks[me] == if old(tasks)[me].Dropping?
        then Dropping(old(tasks)[me].server, old(tasks)[me].names[1..], old(tasks)[me].tools)
        else Removing(old(tasks)[me].server, old(tasks)[me].names[1..])
      ensures WasOut(trace, from, old(tasks)[me].names[0])
      ensures forall n :: WasOut(old(trace), from, n) ==> WasOut(trace, from, n)
    {
      hide Inv, Run, WasOut, Own;
      var task := tasks[me];
      Mark(me, DropStep(task, me));
      registry := registry - {task.names[0]};
      if task.Dropping? {
        tasks := tasks[me := Dropping(task.server, task.names[1..], task.tools)];
      } else {
        tasks := tasks[me := Removing(task.server, task.names[1..])];
      }
      OutNow(trace, from, task.names[0]);
      forall n | WasOut(old(trace), from, n)
        ensures WasOut(trace, from, n)
      {
        StillWasOut(old(trace), trace, from, n);
      }
    }

    /**
      Drops every tool recorded for `server`: each of the names taken leaves the registry. No tool
      that is not the admin's does. Its own steps are those of a disconnect, so that alone it
      removes exactly the server's tools. Called when the lock is granted.
     */
    method UnregisterServerTools(me: nat, server: string)
      requires Valid() && me !in tasks && lock == None
      modifies this
      ensures Valid() && old(trace) <= trace && me !in tasks && ForeignKept(old(registry), registry)
      ensures forall n :: n in NamesOf(old(Abstract()), server) ==> WasOut(trace, |old(trace)|, n)
      ensures Own(trace, me) == old(Own(trace, me) + DisconnectSteps(Abstract(), me, server))
      ensures old(tasks) == map[] && Alone(old(trace), trace, me) ==> Removed(old(Abstract()), Abstract(), server)
    {
      hide Inv, Run, WasOut, Own, Removed, Alone;
      var names := if server in registered then registered[server] else [];
      Mark(me, TakeNames(me, server));
      registered := registered - {server};
      tasks := tasks[me := Removing(server, names)];
      ghost var taken := trace;
      DropAll(me);
      ghost var dropped := trace;
      RepeatLast(RemoveOne(me), |names|);
      Mark(me, RemoveOne(me));
      tasks := tasks - {me};
      forall n | n in names
        ensures WasOut(trace, |old(trace)|, n)
      {
        WasOutSince(dropped, |taken|, |old(trace)|, n);
        StillWasOut(dropped, trace, |old(trace)|, n);
      }
      DisconnectedAlone(old(trace), trace, me, server);
    }

    /** Registers the tools of a connect, one at a time; a collision is skipped. */
    method AddAll(me: nat, server: string, tools: seq<string>)
      requires Valid() && lock == Some(me) && me in tasks && tasks[me] == Adding(server, tools, [])
      modifies this
      ensures Valid() && old(trace) <= trace && ForeignKept(old(registry), registry) && lock == Some(me) && me in tasks
      ensures tasks[me].Adding? && tasks[me].server == server && tasks[me].left == []
      ensures Own(trace, me) == old(Own(trace, me)) + Repeat(AddOne(me), |tools|)
      ensures forall n :: n in tasks[me].names ==> n in tools
      ensures forall n :: n in tools && n != "" ==> n in tasks[me].names || Refused(trace, |old(trace)|, me, n)
    {
      hide Inv, Run, Own, Refused;
      Others(me);
      for i := 0 to |tools|
        invariant Valid() && old(trace) <= trace && ForeignKept(old(registry), registry)
        invariant me in tasks && lock == Some(me)
        invariant tasks[me].Adding? && tasks[me].server == server && tasks[me].left == tools[i..]
        invariant Own(trace, me) + Repeat(AddOne(me), |tools| - i) == old(Own(trace, me)) + Repeat(AddOne(me), |tools|)
        invariant forall n :: n in tasks[me].names ==> n in tools
        invariant forall j :: 0 <= j < i && tools[j] != "" ==>
          tools[j] in tasks[me].names || Refused(trace, |old(trace)|, me, tools[j])
      {
        RepeatNext(Own(trace, me), AddOne(me), |tools| - i);
        ghost var before := trace;
        OfferNext(me, server, tools[i..], |old(trace)|);
        ghost var offered := trace;
        Others(me);
        RefusedStay(before, offered, |old(trace)|, me);
        RefusedStay(offered, trace, |old(trace)|, me);
      }
    }

    /** The next tool is registered unless its name is held. */
    method OfferNext(me: nat, server: string, left: seq<string>, ghost from: nat)
      requires Valid() && lock == Some(me) && me in tasks && from <= |trace|
      requires tasks[me].Adding? && tasks[me].server == server && tasks[me].left == left && left != []
      modifies this`registry, this`tasks, this`trace
      ensures Valid() && old(trace) <= trace && ForeignKept(old(registry), registry)
      ensures Own(trace, me) == old(Own(trace, me)) + [AddOne(me)] && me in tasks
      ensures tasks[me] == Adding(server, left[1..], tasks[me].names)
      ensures tasks[me].names == old(tasks)[me].names || tasks[me].names == old(tasks)[me].names + [left[0]]
      ensures left[0] != "" ==> left[0] in tasks[me].names || Refused(trace, from, me, left[0])
    {
      hide Inv, Run, Own, Refused;
      ghost var before := Abstract();
      if left[0] !in tasks[me].names && left[0] in registry {
        RefusedNow(trace, from, me, left[0]);
      }
      Mark(me, AddOne(me));
      var names := tasks[me].names;
      var inserted := Register(registry, left[0], Mcp(server));
      if inserted.Some? {
        registry := inserted.value;
        names := names + [left[0]];
      }
      tasks := tasks[me := Adding(server, left[1..], names)];
      assert Abstract() == Apply(before, AddOne(me));
    }

    /**
      Replaces the tools recorded for `server`: drops the old names, registers the new ones and
      records those that did not collide. The record holds tools of this server only, and every
      offered name that is not in it is empty or was held at its turn. Its own steps are those of a
      connect, so that alone it leaves exactly the usable names. Called when the lock is granted.
     */
    method RegisterServerTools(me: nat, server: string, tools: seq<string>)
      requires Valid() && me !in tasks && lock == None
      modifies this
      ensures Valid() && old(trace) <= trace && ForeignKept(old(registry), registry) && me !in tasks && lock == None
      ensures server in registered
      ensures forall n :: n in registered[server] ==> n in tools && n in registry && registry[n] == Mcp(server)
      ensures forall n :: n in tools && n != "" ==> n in registered[server] || Refused(trace, |old(trace)|, me, n)
      ensures forall n :: n in NamesOf(old(Abstract()), server) ==> WasOut(trace, |old(trace)|, n)
      ensures Own(trace, me) == old(Own(trace, me) + ConnectSteps(Abstract(), me, server, tools))
      ensures old(tasks) == map[] && Alone(old(trace), trace, me) ==>
        Replaced(old(Abstract()), Abstract(), server, tools)
    {
      hide Inv, Run, WasOut, Own, Refused, Replaced, Alone;
      DropOld(me, server, tools);
      ghost var gone := trace;
      AddAll(me, server, tools);
      ghost var added := trace;
      Mark(me, Record(me));
      RecordedIsPresent(Apply(Abstract(), Record(me)), server);
      registered := registered[server := tasks[me].names];
      lock := None;
      tasks := tasks - {me};
      forall n | n in NamesOf(old(Abstract()), server)
        ensures WasOut(trace, |old(trace)|, n)
      {
        StillWasOut(gone, trace, |old(trace)|, n);
      }
      forall n | n in tools && n != "" && n !in registered[server]
        ensures Refused(trace, |old(trace)|, me, n)
      {
        RefusedSince(added, |gone|, |old(trace)|, me, n);
        StillRefused(added, trace, |old(trace)|, me, n);
      }
      ConnectedAlone(old(trace), trace, me, server, tools);
    }

    /** Takes the lock and the old names, and drops those. */
    method DropOld(me: nat, server: string, tools: seq<string>)
      requires Valid() && me !in tasks && lock == None
      modifies this
      ensures Valid() && old(trace) <= trace && ForeignKept(old(registry), registry)
      ensures lock == Some(me) && me in tasks && tasks[me] == Adding(server, tools, [])
      ensures Own(trace, me) == old(Own(trace, me)) + [StartConnect(me, server, tools)]
        + old(Repeat(DropOne(me), |NamesOf(Abstract(), server)| + 1))
      ensures forall n :: n in NamesOf(old(Abstract()), server) ==> WasOut(trace, |old(trace)|, n)
    {
      hide Inv, Run, WasOut, Own;
      var dropped := if server in registered then registered[server] else [];
      Mark(me, StartConnect(me, server, tools));
      registered := registered - {server};
      lock := Some(me);
      tasks := tasks[me := Dropping(server, dropped, tools)];
      ghost var taken := trace;
      DropAll(me);
      ghost var gone := trace;
      RepeatLast(DropOne(me), |dropped|);
      Mark(me, DropOne(me));
      tasks := tasks[me := Adding(server, tools, [])];
      forall n | n in dropped
        ensures WasOut(trace, |old(trace)|, n)
      {
        WasOutSince(gone, |taken|, |old(trace)|, n);
        StillWasOut(gone, trace, |old(trace)|, n);
      }
    }
  }
}
