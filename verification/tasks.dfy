/**
 * The job registry of app/services/task_manager.py: the `TASKS` table, the two-slot
 * admission semaphore, and the operations the web layer and the worker use on them.
 * Thread creation, clocks and uuids are outside the model: the id and the start time
 * are parameters.
 */
module Tasks {
  import opened Wrappers
  import opened Values

  /** Number of collections that may run at once (the semaphore's initial value). */
  const Capacity: nat := 2

  const BusyMessage: string := "Server is busy (Max 2 tasks running). Please try again in a few minutes."
  const StartingMessage: string := "Starting collection..."

  datatype Status = Initializing | Processing | Stopping | Stopped | Finished | Error

  /** The status word stored in the task record. */
  function StatusName(s: Status): (r: string)
    ensures |r| > 0
  {
    match s
    case Initializing => "initializing"
    case Processing => "processing"
    case Stopping => "stopping"
    case Stopped => "stopped"
    case Finished => "finished"
    case Error => "error"
  }

  /** Reading a status word back. */
  function ParseStatus(w: string): (r: Option<Status>)
    ensures r.Some? ==> StatusName(r.value) == w
  {
    if w == "initializing" then Some(Initializing)
    else if w == "processing" then Some(Processing)
    else if w == "stopping" then Some(Stopping)
    else if w == "stopped" then Some(Stopped)
    else if w == "finished" then Some(Finished)
    else if w == "error" then Some(Error)
    else None
  }

  /** Every status word reads back as the status it names, so the words are distinct. */
  lemma StatusNameRoundTrip(s: Status)
    ensures ParseStatus(StatusName(s)) == Some(s)
  {
  }

  /** Statuses the worker leaves a task in. */
  predicate Terminal(s: Status) {
    s == Stopped || s == Finished || s == Error
  }

  /** One entry of `TASKS`; `stopSet` is the state of the task's stop event. */
  datatype Task = Task(status: Status, progress: int, total: int, startTime: int, stopSet: bool, message: string)

  /** `TASKS` together with the number of semaphore slots currently held. */
  datatype Registry = Registry(held: nat, tasks: map<string, Task>)

  /** The registry before any request. */
  function EmptyRegistry(): (r: Registry)
    ensures r.held == 0 && r.tasks == map[]
  {
    Registry(0, map[])
  }

  /** `start_collection_task`: a non-blocking acquire; on success a fresh record under
      `id`, on failure the busy message and nothing changed. */
  function StartCollectionTask(reg: Registry, id: string, now: int): (r: Result<Registry, string>)
    ensures r.Err? <==> reg.held >= Capacity
    ensures r.Err? ==> r.error == BusyMessage
    ensures r.Ok? ==> r.value.held == reg.held + 1 && r.value.held <= Capacity
    ensures r.Ok? ==> r.value.tasks == reg.tasks[id := Task(Initializing, 0, 0, now, false, StartingMessage)]
  {
    if reg.held >= Capacity then Err(BusyMessage)
    else Ok(Registry(reg.held + 1, reg.tasks[id := Task(Initializing, 0, 0, now, false, StartingMessage)]))
  }

  /** The semaphore release in the worker's `finally`. Releasing a semaphore that is
      already full raises instead, leaving the count as it is. */
  function Release(reg: Registry): (r: Registry)
    ensures r.tasks == reg.tasks
    ensures reg.held > 0 ==> r.held + 1 == reg.held
    ensures reg.held == 0 ==> r.held == 0
  {
    if reg.held > 0 then reg.(held := reg.held - 1) else reg
  }

  /** `progress_callback(completed, total)`: record the counts, mark the task as
      processing, and describe the progress; a no-op for an unknown id. */
  function ProgressCallback(reg: Registry, id: string, completed: int, total: int): (r: Registry)
    ensures r.held == reg.held && r.tasks.Keys == reg.tasks.Keys
    ensures id !in reg.tasks ==> r == reg
    ensures id in reg.tasks ==>
              var t := r.tasks[id];
              && t.progress == completed && t.total == total && t.status == Processing
              && t.message == "Processed " + IntText(completed) + " of " + IntText(total) + " items..."
              && t.startTime == reg.tasks[id].startTime && t.stopSet == reg.tasks[id].stopSet
    ensures forall other :: other in reg.tasks && other != id ==> r.tasks[other] == reg.tasks[other]
  {
    if id !in reg.tasks then reg
    else
      var t := reg.tasks[id];
      reg.(tasks := reg.tasks[id := t.(progress := completed, total := total, status := Processing,
                                        message := "Processed " + IntText(completed) + " of " + IntText(total) + " items...")])
  }

  /** The progress callbacks `(1, n) .. (k, n)` in order. */
  function ApplyReports(reg: Registry, id: string, reports: seq<(nat, nat)>): Registry
    decreases |reports|
  {
    if |reports| == 0 then reg
    else ApplyReports(ProgressCallback(reg, id, reports[0].0, reports[0].1), id, reports[1..])
  }

  /** After the callbacks of a fetch loop the record shows the last count and its
      message, and the stop flag, the start time and every other task are as they were. */
  lemma {:induction false} ApplyReportsEffect(reg: Registry, id: string, reports: seq<(nat, nat)>)
    ensures var r := ApplyReports(reg, id, reports);
            && r.held == reg.held && r.tasks.Keys == reg.tasks.Keys
            && (forall other :: other in reg.tasks && other != id ==> r.tasks[other] == reg.tasks[other])
            && (id in reg.tasks ==>
                  r.tasks[id].stopSet == reg.tasks[id].stopSet && r.tasks[id].startTime == reg.tasks[id].startTime)
            && (id in reg.tasks && |reports| > 0 ==>
                  && r.tasks[id].progress == reports[|reports| - 1].0
                  && r.tasks[id].total == reports[|reports| - 1].1
                  && r.tasks[id].status == Processing
                  && r.tasks[id].message == "Processed " + IntText(reports[|reports| - 1].0) + " of "
                                            + IntText(reports[|reports| - 1].1) + " items...")
            && (|reports| == 0 ==> r == reg)
    decreases |reports|
  {
    if |reports| > 0 {
      var next := ProgressCallback(reg, id, reports[0].0, reports[0].1);
      ApplyReportsEffect(next, id, reports[1..]);
      if |reports| > 1 {
        assert reports[1..][|reports[1..]| - 1] == reports[|reports| - 1];
      }
    }
  }

  /** What `get_task_status` shows of a record. */
  datatype TaskView = TaskView(status: string, progress: int, total: int, message: string, startTime: int)

  /** `get_task_status`: the public view of a record, `None` for an unknown id. */
  function GetTaskStatus(reg: Registry, id: string): (r: Option<TaskView>)
    ensures r.Some? <==> id in reg.tasks
    ensures r.Some? ==> ParseStatus(r.value.status) == Some(reg.tasks[id].status)
    ensures r.Some? ==> var t := reg.tasks[id];
              r.value.progress == t.progress && r.value.total == t.total
              && r.value.message == t.message && r.value.startTime == t.startTime
  {
    if id !in reg.tasks then None
    else
      var t := reg.tasks[id];
      StatusNameRoundTrip(t.status);
      Some(TaskView(StatusName(t.status), t.progress, t.total, t.message, t.startTime))
  }

  /** `stop_task`: set the stop event and mark the task as stopping, whatever its
      current status; `false` for an unknown id. */
  function StopTask(reg: Registry, id: string): (r: (Registry, bool))
    ensures r.1 <==> id in reg.tasks
    ensures !r.1 ==> r.0 == reg
    ensures r.0.held == reg.held && r.0.tasks.Keys == reg.tasks.Keys
    ensures r.1 ==> r.0.tasks[id] == reg.tasks[id].(stopSet := true, status := Stopping)
    ensures forall other :: other in reg.tasks && other != id ==> r.0.tasks[other] == reg.tasks[other]
  {
    if id !in reg.tasks then (reg, false)
    else (reg.(tasks := reg.tasks[id := reg.tasks[id].(stopSet := true, status := Stopping)]), true)
  }

  /** Stopping twice is the same as stopping once. */
  lemma StopTaskIdempotent(reg: Registry, id: string)
    ensures StopTask(StopTask(reg, id).0, id) == (StopTask(reg, id).0, id in reg.tasks)
  {
    if id in reg.tasks {
      var once := StopTask(reg, id).0;
      assert once.tasks[id := once.tasks[id].(stopSet := true, status := Stopping)] == once.tasks;
    }
  }

  /** A task that is stopped after it finished reads as stopping again: the stop call
      does not check whether the task is still running. */
  lemma StopAfterFinish(reg: Registry, id: string)
    requires id in reg.tasks && reg.tasks[id].status == Finished
    ensures GetTaskStatus(StopTask(reg, id).0, id).value.status == "stopping"
  {
  }

  /** `safe_int(key, default)` over the filters dict: a missing or `None` value, or one
      `int()` rejects, gives the default. */
  function SafeInt(filters: seq<(Key, Value)>, key: string, default: Option<int>): (r: Option<int>)
    ensures Lookup(filters, KStr(key)).GetOr(Null) == Null ==> r == default
    ensures Lookup(filters, KStr(key)).GetOr(Null) != Null ==>
              var p := PyInt(Lookup(filters, KStr(key)).value);
              r == (if p.Ok? then Some(p.value) else default)
    ensures default.Some? ==> r.Some?
  {
    var v := Lookup(filters, KStr(key)).GetOr(Null);
    if v == Null then default
    else
      match PyInt(v)
      case Ok(n) => Some(n)
      case Err(_) => default
  }

  /** Digits given as text are read as their number; text `int()` refuses falls back. */
  lemma SafeIntText(filters: seq<(Key, Value)>, key: string, default: Option<int>, n: nat)
    requires Lookup(filters, KStr(key)) == Some(Str(NatText(n)))
    ensures SafeInt(filters, key, default) == Some(n)
  {
    NatTextRoundTrip(n);
  }
}
