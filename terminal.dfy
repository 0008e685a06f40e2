/** `src/terminal.rs`: the task registry (a map keyed by a counter that starts at
    1 and only grows) and the status transitions of running a shell command. */
module Terminal {
  import opened Common
  import opened Text

  datatype TaskStatus = Pending | Running | Completed | Failed | Cancelled

  datatype Task = Task(id: nat, command: string, status: TaskStatus, output: string, error: Option<string>)

  /** Pending and Running tasks; `cancel_all_tasks` and `get_active_tasks` use it. */
  predicate IsActive(status: TaskStatus) {
    status == Running || status == Pending
  }

  /** What `clean_completed_tasks` keeps. */
  predicate IsKept(status: TaskStatus) {
    status != Completed && status != Cancelled
  }

  function TaskNotFound(id: nat): string {
    "Task " + NatToString(id) + " not found"
  }

  class TaskManager {
    var tasks: map<nat, Task>
    var nextId: nat

    /** Every task is stored under its own id, and every id was handed out
        already, so the counter never meets a used id. */
    predicate Valid()
      reads this
    {
      && nextId >= 1
      && forall id :: id in tasks ==> id < nextId && tasks[id].id == id
    }

    constructor ()
      ensures Valid() && tasks == map[] && nextId == 1
    {
      tasks := map[];
      nextId := 1;
    }

    /** `create_task`: a Pending task with empty output under the next id. */
    method CreateTask(command: string) returns (id: nat)
      requires Valid()
      modifies this
      ensures Valid()
      ensures id == old(nextId) && nextId == id + 1
      ensures id !in old(tasks)
      ensures tasks == old(tasks)[id := Task(id, command, Pending, "", None)]
    {
      id := nextId;
      nextId := nextId + 1;
      var task := Task(id, command, Pending, "", None);
      tasks := tasks[id := task];
    }

    /** `update_task_status` */
    method UpdateTaskStatus(id: nat, status: TaskStatus) returns (r: Outcome)
      requires Valid()
      modifies this
      ensures Valid() && nextId == old(nextId)
      ensures id in old(tasks) ==> r == Done && tasks == old(tasks)[id := old(tasks)[id].(status := status)]
      ensures id !in old(tasks) ==> r == Err(TaskNotFound(id)) && tasks == old(tasks)
    {
      if id in tasks {
        tasks := tasks[id := tasks[id].(status := status)];
        r := Done;
      } else {
        r := Err(TaskNotFound(id));
      }
    }

    /** `append_output`: the text is added after the output so far. */
    method AppendOutput(id: nat, output: string) returns (r: Outcome)
      requires Valid()
      modifies this
      ensures Valid() && nextId == old(nextId)
      ensures id in old(tasks) ==> r == Done && tasks == old(tasks)[id := old(tasks)[id].(output := old(tasks)[id].output + output)]
      ensures id !in old(tasks) ==> r == Err(TaskNotFound(id)) && tasks == old(tasks)
    {
      if id in tasks {
        var task := tasks[id];
        tasks := tasks[id := task.(output := task.output + output)];
        r := Done;
      } else {
        r := Err(TaskNotFound(id));
      }
    }

    /** `set_error`: records the error and fails the task; the output stays. */
    method SetError(id: nat, error: string) returns (r: Outcome)
      requires Valid()
      modifies this
      ensures Valid() && nextId == old(nextId)
      ensures id in old(tasks) ==> r == Done && tasks == old(tasks)[id := old(tasks)[id].(error := Some(error), status := Failed)]
      ensures id !in old(tasks) ==> r == Err(TaskNotFound(id)) && tasks == old(tasks)
    {
      if id in tasks {
        var task := tasks[id];
        tasks := tasks[id := task.(error := Some(error), status := Failed)];
        r := Done;
      } else {
        r := Err(TaskNotFound(id));
      }
    }

    /** `get_task`: a copy of the task with that id, if there is one. */
    method GetTask(id: nat) returns (t: Option<Task>)
      requires Valid()
      ensures t.Some? <==> id in tasks
      ensures t.Some? ==> t.value == tasks[id] && t.value.id == id
    {
      if id in tasks {
        t := Some(tasks[id]);
      } else {
        t := None;
      }
    }

    /** The tasks whose status passes `keep`, copied out of the map in an order the
        map chooses. */
    method CollectTasks(keep: TaskStatus -> bool) returns (r: seq<Task>)
      requires Valid()
      ensures forall t :: t in r <==> t in tasks.Values && keep(t.status)
      ensures forall i, j :: 0 <= i < j < |r| ==> r[i].id != r[j].id
    {
      var remaining := tasks.Keys;
      r := [];
      while remaining != {}
        invariant remaining <= tasks.Keys
        invariant forall t :: t in r <==> t.id in tasks.Keys - remaining && tasks[t.id] == t && keep(t.status)
        invariant forall i :: 0 <= i < |r| ==> r[i].id !in remaining
        invariant forall i, j :: 0 <= i < j < |r| ==> r[i].id != r[j].id
        decreases remaining
      {
        var id :| id in remaining;
        if keep(tasks[id].status) {
          r := r + [tasks[id]];
        }
        remaining := remaining - {id};
      }
    }

    /** `list_tasks`: every task exactly once. */
    method ListTasks() returns (r: seq<Task>)
      requires Valid()
      ensures forall t :: t in r <==> t in tasks.Values
      ensures forall i, j :: 0 <= i < j < |r| ==> r[i].id != r[j].id
    {
      r := CollectTasks(_ => true);
    }

    /** `cancel_task` */
    method CancelTask(id: nat) returns (r: Outcome)
      requires Valid()
      modifies this
      ensures Valid() && nextId == old(nextId)
      ensures id in old(tasks) ==> r == Done && tasks == old(tasks)[id := old(tasks)[id].(status := Cancelled)]
      ensures id !in old(tasks) ==> r == Err(TaskNotFound(id)) && tasks == old(tasks)
    {
      r := UpdateTaskStatus(id, Cancelled);
    }

    /** `cancel_all_tasks`: every Pending or Running task becomes Cancelled, and no
        other task changes; afterwards no task is active. */
    method CancelAllTasks() returns (r: Outcome)
      requires Valid()
      modifies this
      ensures Valid() && nextId == old(nextId) && r == Done
      ensures tasks.Keys == old(tasks).Keys
      ensures forall id :: id in tasks ==>
        tasks[id] == if IsActive(old(tasks)[id].status) then old(tasks)[id].(status := Cancelled) else old(tasks)[id]
      ensures forall id :: id in tasks ==> !IsActive(tasks[id].status)
    {
      var remaining := tasks.Keys;
      while remaining != {}
        invariant Valid() && nextId == old(nextId)
        invariant remaining <= tasks.Keys && tasks.Keys == old(tasks).Keys
        invariant forall id :: id in remaining ==> tasks[id] == old(tasks)[id]
        invariant forall id :: id in tasks && id !in remaining ==>
          tasks[id] == if IsActive(old(tasks)[id].status) then old(tasks)[id].(status := Cancelled) else old(tasks)[id]
        decreases remaining
      {
        var id :| id in remaining;
        var task := tasks[id];
        if task.status == Running || task.status == Pending {
          tasks := tasks[id := task.(status := Cancelled)];
        }
        remaining := remaining - {id};
      }
      r := Done;
    }

    /** `get_active_tasks`: exactly the Pending and Running tasks. */
    method GetActiveTasks() returns (r: seq<Task>)
      requires Valid()
      ensures forall t :: t in r <==> t in tasks.Values && IsActive(t.status)
      ensures forall i, j :: 0 <= i < j < |r| ==> r[i].id != r[j].id
    {
      r := CollectTasks(IsActive);
    }

    /** `clean_completed_tasks`: removes exactly the Completed and Cancelled tasks;
        the counter is untouched, so their ids are never handed out again. */
    method CleanCompletedTasks()
      requires Valid()
      modifies this
      ensures Valid() && nextId == old(nextId)
      ensures tasks == map id | id in old(tasks) && IsKept(old(tasks)[id].status) :: old(tasks)[id]
    {
      tasks := map id | id in tasks && IsKept(tasks[id].status) :: tasks[id];
    }
  }

  /** The outcome of `sh -c command`: whether it succeeded, and its two streams. */
  datatype CommandOutput = CommandOutput(success: bool, stdout: string, stderr: string)

  class Terminal {
    const taskManager: TaskManager

    predicate Valid()
      reads this, taskManager
    {
      taskManager.Valid()
    }

    constructor ()
      ensures Valid() && fresh(taskManager)
      ensures taskManager.tasks == map[] && taskManager.nextId == 1
    {
      taskManager := new TaskManager();
    }

    /** `execute_command`: the new task goes Pending, then Running; a successful
        command appends its stdout and completes it, a failed one records stderr
        and fails it. When the command cannot be spawned (`spawn` is an error), the
        error is returned and the task stays Running. */
    method ExecuteCommand(command: string, spawn: Result<CommandOutput>) returns (r: Result<string>)
      requires Valid()
      modifies taskManager
      ensures Valid()
      ensures var id := old(taskManager.nextId);
        && taskManager.nextId == id + 1
        && id !in old(taskManager.tasks)
        && taskManager.tasks == old(taskManager.tasks)[id := FinalTask(id, command, spawn)]
      ensures spawn.Err? ==> r == Err(spawn.error)
      ensures spawn.Ok? && spawn.value.success ==> r == Ok(spawn.value.stdout)
      ensures spawn.Ok? && !spawn.value.success ==> r == Err("Command failed: " + spawn.value.stderr)
    {
      var taskId := taskManager.CreateTask(command);
      var started := taskManager.UpdateTaskStatus(taskId, Running);
      assert started == Done;
      if spawn.Err? {
        return Err(spawn.error);
      }
      var output := spawn.value;
      if output.success {
        var appended := taskManager.AppendOutput(taskId, output.stdout);
        var completed := taskManager.UpdateTaskStatus(taskId, Completed);
        assert appended == Done && completed == Done;
        r := Ok(output.stdout);
      } else {
        var failed := taskManager.SetError(taskId, output.stderr);
        assert failed == Done;
        r := Err("Command failed: " + output.stderr);
      }
    }
  }

  /** The task `execute_command` leaves behind. */
  function FinalTask(id: nat, command: string, spawn: Result<CommandOutput>): (t: Task)
    ensures t.id == id && t.command == command
    ensures spawn.Err? <==> t.status == Running
    ensures t.status == Completed <==> spawn.Ok? && spawn.value.success
    ensures t.status == Failed <==> spawn.Ok? && !spawn.value.success
    ensures t.status == Completed ==> t.output == spawn.value.stdout && t.error == None
    ensures t.status == Failed ==> t.output == "" && t.error == Some(spawn.value.stderr)
  {
    match spawn
    case Err(_) => Task(id, command, Running, "", None)
    case Ok(out) =>
      if out.success then Task(id, command, Completed, "" + out.stdout, None)
      else Task(id, command, Failed, "", Some(out.stderr))
  }
}
