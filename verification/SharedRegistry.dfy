/**
  Who owns which tool in the shared registry. Connects and disconnects of operator MCP servers
  run concurrently with each other and with foreign registrations; each registry operation is
  atomic, a connect holds the admin's lock throughout, a disconnect only while it takes the names.
 */
module SharedRegistry {
  import opened Basics
  import opened Options

  datatype Owner = Foreign | Mcp(server: string)

  /** A task of the admin between two of its steps. */
  datatype Task =
    | Removing(server: string, names: seq<string>)
    | Dropping(server: string, names: seq<string>, tools: seq<string>)
    | Adding(server: string, left: seq<string>, names: seq<string>)

  datatype State = State(
    registry: map<string, Owner>,
    registered: map<string, seq<string>>,
    lock: Option<nat>,
    tasks: map<nat, Task>)

  datatype Step =
    | StartConnect(task: nat, server: string, tools: seq<string>)
    | DropOne(task: nat)
    | AddOne(task: nat)
    | Record(task: nat)
    | TakeNames(task: nat, server: string)
    | RemoveOne(task: nat)
    | ForeignRegister(name: string)

  const EMPTY := State(map[], map[], None, map[])

  /** Insertion fails on an empty name and on a name already present. */
  function Register(registry: map<string, Owner>, name: string, owner: Owner): (r: Option<map<string, Owner>>)
    ensures r.Some? ==> name !in registry && r.value == registry[name := owner]
  {
    if name == "" || name in registry then None else Some(registry[name := owner])
  }

  function NamesOf(s: State, server: string): seq<string> {
    if server in s.registered then s.registered[server] else []
  }

  /** A connect takes the lock and the old names of its server. */
  function BeginConnect(s: State, t: nat, server: string, tools: seq<string>): State {
    if s.lock == None && t !in s.tasks then
      s.(registered := s.registered - {server}, lock := Some(t),
         tasks := s.tasks[t := Dropping(server, NamesOf(s, server), tools)])
    else s
  }

  /** It unregisters the old names one by one, then turns to the new tools. */
  function DropName(s: State, t: nat): State {
    if t in s.tasks && s.tasks[t].Dropping? then
      var task := s.tasks[t];
      if task.names == [] then s.(tasks := s.tasks[t := Adding(task.server, task.tools, [])])
      else
        s.(registry := s.registry - {task.names[0]},
           tasks := s.tasks[t := Dropping(task.server, task.names[1..], task.tools)])
    else s
  }

  /** A name that collides is skipped, never replaced. */
  function AddName(s: State, t: nat): State {
    if t in s.tasks && s.tasks[t].Adding? && s.tasks[t].left != [] then
      var task := s.tasks[t];
      var (name, left) := (task.left[0], task.left[1..]);
      match Register(s.registry, name, Mcp(task.server))
      case None => s.(tasks := s.tasks[t := Adding(task.server, left, task.names)])
      case Some(registry) =>
        s.(registry := registry, tasks := s.tasks[t := Adding(task.server, left, task.names + [name])])
    else s
  }

  function RecordNames(s: State, t: nat): State {
    if t in s.tasks && s.tasks[t].Adding? && s.tasks[t].left == [] then
      s.(registered := s.registered[s.tasks[t].server := s.tasks[t].names], lock := None, tasks := s.tasks - {t})
    else s
  }

  /** A disconnect, update or removal takes the names under the lock and lets the lock go. */
  function BeginRemoval(s: State, t: nat, server: string): State {
    if s.lock == None && t !in s.tasks then
      s.(registered := s.registered - {server}, tasks := s.tasks[t := Removing(server, NamesOf(s, server))])
    else s
  }

  function RemoveName(s: State, t: nat): State {
    if t in s.tasks && s.tasks[t].Removing? then
      var task := s.tasks[t];
      if task.names == [] then s.(tasks := s.tasks - {t})
      else
        s.(registry := s.registry - {task.names[0]},
           tasks := s.tasks[t := Removing(task.server, task.names[1..])])
    else s
  }

  function AddForeign(s: State, name: string): State {
    match Register(s.registry, name, Foreign)
    case None => s
    case Some(registry) => s.(registry := registry)
  }

  function Apply(s: State, step: Step): State {
    match step
    case StartConnect(t, server, tools) => BeginConnect(s, t, server, tools)
    case DropOne(t) => DropName(s, t)
    case AddOne(t) => AddName(s, t)
    case Record(t) => RecordNames(s, t)
    case TakeNames(t, server) => BeginRemoval(s, t, server)
    case RemoveOne(t) => RemoveName(s, t)
    case ForeignRegister(name) => AddForeign(s, name)
  }

  function Run(s: State, steps: seq<Step>): State
    decreases |steps|
  {
    if steps == [] then s else Run(Apply(s, steps[0]), steps[1..])
  }

  // ----- claims

  /** Where a name of the admin is kept: in a server's record, or with a task. */
  datatype Holder = Recorded(server: string) | Held(task: nat)

  function Claims(s: State, h: Holder): seq<string> {
    match h
    case Recorded(server) => NamesOf(s, server)
    case Held(t) => if t in s.tasks then s.tasks[t].names else []
  }

  function ServerOf(s: State, h: Holder): string {
    match h
    case Recorded(server) => server
    case Held(t) => if t in s.tasks then s.tasks[t].server else ""
  }

  /** Every claimed name is in the registry, as a tool of the claiming server. */
  ghost predicate Present(s: State) {
    forall h, n :: n in Claims(s, h) ==> n in s.registry && s.registry[n] == Mcp(ServerOf(s, h))
  }

  /** No name is claimed twice. */
  ghost predicate Exclusive(s: State) {
    && (forall h :: Distinct(Claims(s, h)))
    && forall h, k, n :: n in Claims(s, h) && n in Claims(s, k) ==> h == k
  }

  /** No tool of the admin is forgotten. */
  ghost predicate NoLeak(s: State) {
    forall n :: n in s.registry && s.registry[n].Mcp? ==> exists h :: n in Claims(s, h)
  }

  /** A connect in progress holds the lock. */
  ghost predicate Locked(s: State) {
    forall t :: t in s.tasks && !s.tasks[t].Removing? ==> s.lock == Some(t)
  }

  /** While a server connects, its names are nowhere else recorded. */
  ghost predicate Connecting(s: State) {
    forall t :: t in s.tasks && !s.tasks[t].Removing? ==> NamesOf(s, s.tasks[t].server) == []
  }

  ghost predicate Owned(s: State) {
    Present(s) && Exclusive(s) && NoLeak(s)
  }

  ghost predicate Inv(s: State) {
    Owned(s) && Locked(s) && Connecting(s)
  }

  // ----- the three ways claims change

  /** Claims move from one holder to another of the same server. */
  lemma Transfer(s: State, s': State, a: Holder, b: Holder)
    requires Owned(s) && s'.registry == s.registry && a != b
    requires Claims(s, b) == [] == Claims(s', a) && Claims(s', b) == Claims(s, a)
    requires ServerOf(s', b) == ServerOf(s, a)
    requires forall h :: h != a && h != b ==> Claims(s', h) == Claims(s, h) && ServerOf(s', h) == ServerOf(s, h)
    ensures Owned(s')
  {
    forall h, n | n in Claims(s', h)
      ensures n in s'.registry && s'.registry[n] == Mcp(ServerOf(s', h))
    {
      assert n in Claims(s, if h == b then a else h);
    }
    forall h, k, n | n in Claims(s', h) && n in Claims(s', k)
      ensures h == k
    {
      assert n in Claims(s, if h == b then a else h) && n in Claims(s, if k == b then a else k);
    }
    forall n | n in s'.registry && s'.registry[n].Mcp?
      ensures exists h :: n in Claims(s', h)
    {
      var h :| n in Claims(s, h);
      assert n in Claims(s', if h == a then b else h);
    }
  }

  lemma TailMembership(names: seq<string>, n: string)
    requires names != [] && Distinct(names)
    ensures n in names[1..] <==> n in names && n != names[0]
  {
    if n in names && n != names[0] {
      var i :| 0 <= i < |names| && names[i] == n;
      assert names[1..][i - 1] == n;
    }
    assert forall i :: 0 <= i < |names| - 1 ==> names[1..][i] == names[i + 1];
  }

  /** A holder gives up a claim as its name leaves the registry. */
  lemma Shrink(s: State, s': State, a: Holder)
    requires Owned(s) && Claims(s, a) != []
    requires s'.registry == s.registry - {Claims(s, a)[0]} && Claims(s', a) == Claims(s, a)[1..]
    requires forall h :: h != a ==> Claims(s', h) == Claims(s, h)
    requires forall h :: ServerOf(s', h) == ServerOf(s, h)
    ensures Owned(s')
  {
    hide Claims, ServerOf;
    var names, name := Claims(s, a), Claims(s, a)[0];
    forall h, n
      ensures n in Claims(s', h) <==> n in Claims(s, h) && n != name
    {
      if h == a {
        TailMembership(names, n);
      } else {
        assert name in names;
      }
    }
    assert Distinct(Claims(s', a)) by {
      assert forall i :: 0 <= i < |names| - 1 ==> names[1..][i] == names[i + 1];
    }
  }

  /** A holder claims a name that enters the registry. */
  lemma Grow(s: State, s': State, a: Holder, name: string)
    requires Owned(s) && name !in s.registry
    requires s'.registry == s.registry[name := Mcp(ServerOf(s, a))] && Claims(s', a) == Claims(s, a) + [name]
    requires forall h :: h != a ==> Claims(s', h) == Claims(s, h)
    requires forall h :: ServerOf(s', h) == ServerOf(s, h)
    ensures Owned(s')
  {
    hide Claims, ServerOf;
    forall h, n
      ensures n in Claims(s', h) <==> n in Claims(s, h) || (h == a && n == name)
    {
      if h == a {
        assert Claims(s', a)[|Claims(s, a)|] == name;
        assert n in Claims(s, a) ==> n in Claims(s, a) + [name];
      }
    }
  }

  lemma Unchanged(s: State, s': State)
    requires Owned(s)
    requires forall n :: n in s.registry ==> n in s'.registry && s'.registry[n] == s.registry[n]
    requires forall n :: n in s'.registry && n !in s.registry ==> s'.registry[n] == Foreign
    requires forall h :: Claims(s', h) == Claims(s, h) && (Claims(s, h) != [] ==> ServerOf(s', h) == ServerOf(s, h))
    ensures Owned(s')
  {
    forall n | n in s'.registry && s'.registry[n].Mcp?
      ensures exists h :: n in Claims(s', h)
    {
      var h :| n in Claims(s, h);
      assert n in Claims(s', h);
    }
    assert forall h, n :: n in Claims(s', h) ==> n in Claims(s, h) && Claims(s, h) != [];
  }

  // ----- every step keeps the invariant

  lemma BeginConnectKeeps(s: State, t: nat, server: string, tools: seq<string>)
    requires Inv(s)
    ensures Inv(BeginConnect(s, t, server, tools))
  {
    hide Owned;
    if s.lock == None && t !in s.tasks {
      Transfer(s, BeginConnect(s, t, server, tools), Recorded(server), Held(t));
    }
  }

  lemma DropNameKeeps(s: State, t: nat)
    requires Inv(s)
    ensures Inv(DropName(s, t))
  {
    hide Owned;
    if t in s.tasks && s.tasks[t].Dropping? {
      if s.tasks[t].names == [] {
        Unchanged(s, DropName(s, t));
      } else {
        Shrink(s, DropName(s, t), Held(t));
      }
    }
  }

  lemma AddNameKeeps(s: State, t: nat)
    requires Inv(s)
    ensures Inv(AddName(s, t))
  {
    hide Owned;
    if t in s.tasks && s.tasks[t].Adding? && s.tasks[t].left != [] {
      var name := s.tasks[t].left[0];
      if Register(s.registry, name, Mcp(s.tasks[t].server)) == None {
        Unchanged(s, AddName(s, t));
      } else {
        Grow(s, AddName(s, t), Held(t), name);
      }
    }
  }

  lemma RecordNamesKeeps(s: State, t: nat)
    requires Inv(s)
    ensures Inv(RecordNames(s, t))
  {
    hide Owned;
    if t in s.tasks && s.tasks[t].Adding? && s.tasks[t].left == [] {
      Transfer(s, RecordNames(s, t), Held(t), Recorded(s.tasks[t].server));
    }
  }

  lemma BeginRemovalKeeps(s: State, t: nat, server: string)
    requires Inv(s)
    ensures Inv(BeginRemoval(s, t, server))
  {
    hide Owned;
    if s.lock == None && t !in s.tasks {
      Transfer(s, BeginRemoval(s, t, server), Recorded(server), Held(t));
    }
  }

  lemma RemoveNameKeeps(s: State, t: nat)
    requires Inv(s)
    ensures Inv(RemoveName(s, t))
  {
    hide Owned;
    if t in s.tasks && s.tasks[t].Removing? {
      if s.tasks[t].names == [] {
        Unchanged(s, RemoveName(s, t));
      } else {
        Shrink(s, RemoveName(s, t), Held(t));
      }
    }
  }

  lemma AddForeignKeeps(s: State, name: string)
    requires Inv(s)
    ensures Inv(AddForeign(s, name))
  {
    hide Owned;
    Unchanged(s, AddForeign(s, name));
  }

  lemma ApplyKeepsInv(s: State, step: Step)
    requires Inv(s)
    ensures Inv(Apply(s, step))
  {
    hide Inv;
    match step
    case StartConnect(t, server, tools) => BeginConnectKeeps(s, t, server, tools);
    case DropOne(t) => DropNameKeeps(s, t);
    case AddOne(t) => AddNameKeeps(s, t);
    case Record(t) => RecordNamesKeeps(s, t);
    case TakeNames(t, server) => BeginRemovalKeeps(s, t, server);
    case RemoveOne(t) => RemoveNameKeeps(s, t);
    case ForeignRegister(name) => AddForeignKeeps(s, name);
  }

  // ----- over whole runs

  lemma {:induction false} RunKeepsInv(s: State, steps: seq<Step>)
    requires Inv(s)
    ensures Inv(Run(s, steps))
    decreases |steps|
  {
    hide Inv, Apply;
    if steps != [] {
      ApplyKeepsInv(s, steps[0]);
      RunKeepsInv(Apply(s, steps[0]), steps[1..]);
    }
  }

  /** No step of the admin touches a tool the admin did not insert. */
  lemma ForeignStays(s: State, step: Step, n: string)
    requires Inv(s) && n in s.registry && s.registry[n] == Foreign
    ensures n in Apply(s, step).registry && Apply(s, step).registry[n] == Foreign
  {
    hide Exclusive, NoLeak, Locked, Connecting;
    match step
    case DropOne(t) => assert forall x :: x in Claims(s, Held(t)) ==> s.registry[x] == Mcp(ServerOf(s, Held(t)));
    case RemoveOne(t) => assert forall x :: x in Claims(s, Held(t)) ==> s.registry[x] == Mcp(ServerOf(s, Held(t)));
    case _ =>
  }

  lemma {:induction false} ForeignNeverUnregistered(s: State, steps: seq<Step>, n: string)
    requires Inv(s) && n in s.registry && s.registry[n] == Foreign
    ensures n in Run(s, steps).registry && Run(s, steps).registry[n] == Foreign
    decreases |steps|
  {
    hide Inv, Apply;
    if steps != [] {
      ApplyKeepsInv(s, steps[0]);
      ForeignStays(s, steps[0], n);
      ForeignNeverUnregistered(Apply(s, steps[0]), steps[1..], n);
    }
  }

  lemma EmptyInv()
    ensures Inv(EMPTY)
  {
  }

  /**
    Over every interleaving: names that are recorded or pending removal are in the registry as
    tools of their own server, so those of different servers are disjoint; and every tool of the
    admin in the registry is recorded or with a task, so none leaks.
   */
  lemma OwnershipHolds(steps: seq<Step>)
    ensures var s := Run(EMPTY, steps);
      && (forall h, n :: n in Claims(s, h) ==> n in s.registry && s.registry[n] == Mcp(ServerOf(s, h)))
      && (forall h, k, n :: n in Claims(s, h) && n in Claims(s, k) ==> h == k)
      && (forall h :: Distinct(Claims(s, h)))
      && (forall n :: n in s.registry && s.registry[n].Mcp? ==> exists h :: n in Claims(s, h))
  {
    hide Locked, Connecting, Claims, Run, Apply;
    EmptyInv();
    RunKeepsInv(EMPTY, steps);
  }

  /** When no task is under way, the records are exactly the admin's part of the registry. */
  lemma RecordsAreTheRegistry(steps: seq<Step>, server: string, n: string)
    requires Run(EMPTY, steps).tasks == map[]
    ensures var s := Run(EMPTY, steps);
      n in NamesOf(s, server) <==> n in s.registry && s.registry[n] == Mcp(server)
  {
    hide Run, Apply;
    EmptyInv();
    RunKeepsInv(EMPTY, steps);
    var s := Run(EMPTY, steps);
    assert n in NamesOf(s, server) <==> n in Claims(s, Recorded(server));
    if n in s.registry && s.registry[n] == Mcp(server) {
      var h :| n in Claims(s, h);
      assert h.Recorded?;
    }
  }

  // ----- the admin's operations, with everyone else running in between

  predicate IsStepOf(step: Step, t: nat) {
    match step
    case StartConnect(task, _, _) => task == t
    case DropOne(task) => task == t
    case AddOne(task) => task == t
    case Record(task) => task == t
    case TakeNames(task, _) => task == t
    case RemoveOne(task) => task == t
    case ForeignRegister(_) => false
  }

  /** What one task may rely on while the others run. */
  lemma OthersStep(s: State, step: Step, me: nat)
    requires Inv(s) && !IsStepOf(step, me)
    ensures me in s.tasks ==> me in Apply(s, step).tasks && Apply(s, step).tasks[me] == s.tasks[me]
    ensures s.lock == Some(me) ==> Apply(s, step).lock == Some(me) && Apply(s, step).registered == s.registered
  {
    hide Owned, Connecting;
  }

  lemma {:induction false} RunAppend(s: State, steps: seq<Step>, step: Step)
    ensures Run(s, steps + [step]) == Apply(Run(s, steps), step)
    decreases |steps|
  {
    hide Apply;
    if steps == [] {
      assert [] + [step] == [step] && [step][1..] == [];
      assert Run(s, [step]) == Run(Apply(s, step), []);
    } else {
      assert (steps + [step])[1..] == steps[1..] + [step] && (steps + [step])[0] == steps[0];
      RunAppend(Apply(s, steps[0]), steps[1..], step);
    }
  }
}
