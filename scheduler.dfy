/**
 * The XXL-JOB task registry: scheduled agent tasks are kept by name, and registering a task
 * also installs a job handler under that name in the executor's handler table. A fire of the
 * job runs the task with the fire's context as its only input.
 */
module Scheduler {
  import opened Wrappers
  import opened StateBag

  /** The single input key of a fired task. */
  const ContextKey: string := "xxl-job-context"

  /** A scheduled agent task: its name (also its id) and the agent graph it runs. */
  datatype Task = Task(name: string, graph: string)

  /** One run of a task by a fire: the task and the inputs it is given. */
  datatype Execution = Execution(task: Task, inputs: Bag)

  /** The registry's state: the active tasks, the executor's handler table (the task each
      installed handler runs), and the shutdown flag. */
  datatype RegistryState = RegistryState(activeTasks: map<string, Task>, handlers: map<string, Task>, shutdown: bool)

  const Initial: RegistryState := RegistryState(map[], map[], false)

  function Register(s: RegistryState, task: Task): RegistryState {
    s.(activeTasks := s.activeTasks[task.name := task], handlers := s.handlers[task.name := task])
  }

  /** Removes the task, and only the task: its handler stays installed. */
  function Unregister(s: RegistryState, id: string): RegistryState {
    s.(activeTasks := s.activeTasks - {id})
  }

  /** `shutdown` clears the active tasks; the flag is never set. */
  function Cleared(s: RegistryState): RegistryState {
    s.(activeTasks := map[])
  }

  function Lookup(s: RegistryState, id: string): Option<Task> {
    if id in s.activeTasks then Some(s.activeTasks[id]) else None
  }

  /** A fire of the job named `name`: nothing when no handler is installed; otherwise the
      handler's task runs with inputs holding exactly the context, and a null context fails
      `Map.of`. */
  function Fired(s: RegistryState, name: string, context: Option<Value>): Option<Result<Execution>> {
    if name !in s.handlers then None
    else if context.None? then Some(Err("NullPointerException"))
    else Some(Ok(Execution(s.handlers[name], map[ContextKey := context.value])))
  }

  /** Every state the operations reach from the initial one has the flag down. */
  ghost predicate Reachable(s: RegistryState) {
    && !s.shutdown
    && (forall id :: id in s.handlers ==> s.handlers[id].name == id)
    && (forall id :: id in s.activeTasks ==> id in s.handlers && s.activeTasks[id] == s.handlers[id])
  }

  /** The operations keep the registry reachable: every task sits under its own name, and
      active tasks always have their handler. */
  lemma OperationsKeepReachable(s: RegistryState, task: Task, id: string)
    requires Reachable(s)
    ensures Reachable(Register(s, task)) && Reachable(Unregister(s, id)) && Reachable(Cleared(s))
    ensures Reachable(Initial)
  {
  }

  /** After a registration the task is found under its name, and registering the same name
      again replaces the earlier task. */
  lemma RegisterThenLookup(s: RegistryState, task: Task, other: string)
    ensures Lookup(Register(s, task), task.name) == Some(task)
    ensures other != task.name ==> Lookup(Register(s, task), other) == Lookup(s, other)
  {
  }

  lemma ReregisterReplaces(s: RegistryState, first: Task, second: Task)
    requires first.name == second.name
    ensures Register(Register(s, first), second) == Register(s, second)
  {
  }

  /** An unregistered task is no longer found, but its job still fires and runs it. */
  lemma UnregisteredStillFires(s: RegistryState, task: Task, context: Value)
    ensures Lookup(Unregister(Register(s, task), task.name), task.name).None?
    ensures Fired(Unregister(Register(s, task), task.name), task.name, Some(context)) ==
      Some(Ok(Execution(task, map[ContextKey := context])))
  {
  }

  /** A run's inputs hold exactly the context key. */
  lemma FireInputs(s: RegistryState, name: string, context: Option<Value>)
    ensures Fired(s, name, context).Some? && Fired(s, name, context).value.Ok? ==>
      Fired(s, name, context).value.value.inputs.Keys == {ContextKey}
    ensures Fired(s, name, context).Some? <==> name in s.handlers
  {
  }

  /** After shutdown nothing is found, the flag is still down and the handlers still fire. */
  lemma ShutdownFacts(s: RegistryState, id: string)
    requires Reachable(s)
    ensures Lookup(Cleared(s), id).None?
    ensures !Cleared(s).shutdown
    ensures Cleared(s).handlers == s.handlers
  {
  }

  /** `XxlJobScheduledAgentManager`. */
  class Registry {
    var activeTasks: map<string, Task>
    var handlers: map<string, Task>
    var shutdown: bool

    function State(): RegistryState
      reads this
    {
      RegistryState(activeTasks, handlers, shutdown)
    }

    ghost predicate Valid()
      reads this
    {
      Reachable(State())
    }

    constructor()
      ensures Valid() && State() == Initial
    {
      activeTasks := map[];
      handlers := map[];
      shutdown := false;
    }

    /** `registerTask`: installs the handler, records the task and returns its name. */
    method RegisterTask(task: Task) returns (id: string)
      requires Valid()
      modifies this
      ensures Valid() && State() == Register(old(State()), task)
      ensures id == task.name
    {
      handlers := handlers[task.name := task];
      activeTasks := activeTasks[task.name := task];
      id := task.name;
    }

    /** `unregisterTask`: removes the task and reports success whether or not it was there. */
    method UnregisterTask(id: string) returns (ok: bool)
      requires Valid()
      modifies this
      ensures Valid() && State() == Unregister(old(State()), id)
      ensures ok
    {
      activeTasks := activeTasks - {id};
      ok := true;
    }

    /** `getTask`: the task registered under `id`, empty for an unknown id. */
    method GetTask(id: string) returns (t: Option<Task>)
      requires Valid()
      ensures t.Some? <==> id in activeTasks
      ensures t.Some? ==> t.value == activeTasks[id] && t.value.name == id
    {
      t := if id in activeTasks then Some(activeTasks[id]) else None;
    }

    /** Always empty, whatever is registered. */
    method GetAllActiveTaskIds() returns (ids: set<string>)
      ensures ids == {}
    {
      ids := {};
    }

    /** Always 0, whatever is registered. */
    method GetActiveTaskCount() returns (n: int)
      ensures n == 0
    {
      n := 0;
    }

    method IsShutdown() returns (b: bool)
      requires Valid()
      ensures !b
    {
      b := shutdown;
    }

    /** `shutdown`: clears the active tasks and nothing else. */
    method Shutdown()
      requires Valid()
      modifies this
      ensures Valid() && State() == Cleared(old(State()))
    {
      activeTasks := map[];
    }

    /** The executor firing the job named `name`, with the context of that fire. */
    method Fire(name: string, context: Option<Value>) returns (r: Option<Result<Execution>>)
      ensures r == Fired(State(), name, context)
    {
      if name !in handlers {
        return None;
      }
      var task := handlers[name];
      if context.None? {
        return Some(Err("NullPointerException"));
      }
      var inputs := map[ContextKey := context.value];
      r := Some(Ok(Execution(task, inputs)));
    }
  }
}
