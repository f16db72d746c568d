/**
 * The background worker `_worker` of app/services/task_manager.py: one collection run
 * from filters to saved dataset, with the task record updated along the way and the
 * admission slot given back at the end, whatever happened.
 *
 * Everything the worker learns from outside is an input: the key chain configured
 * for the row name, the listing response, the detail responses, the poll rounds, when
 * the user's stop request arrives, and whether saving the dataset fails.
 */
module Worker {
  import opened Wrappers
  import opened Values
  import opened Collector
  import opened Fetch
  import opened Normalize
  import opened Merge
  import opened Tasks

  const DefaultYear: int := 2026
  const FetchingMessage: string := "Fetching initial declarations list..."
  const NoDeclarationsMessage: string := "No declarations found."
  const DownloadingMessage: string := "Downloading detailed row data..."
  const StoppedMessage: string := "Process stopped by user."
  const FormattingMessage: string := "Formatting data..."
  const CompleteMessage: string := "Complete"

  /** What the outside world does during one run. `stopBeforeListing` is a stop request
      that arrives before the listing call, `stopAfterFetch` one that arrives after the
      poll loop ended but before the worker checks the flag; a stop the poll loop sees
      is in `rounds`. `saveError` is the text of a failed dataset save. */
  datatype WorkerEnv = WorkerEnv(
    keyChain: Option<seq<string>>,
    stopBeforeListing: bool,
    listing: Response,
    detail: nat -> FetchInput,
    rounds: seq<Round>,
    stopAfterFetch: bool,
    saveError: Option<string>)

  /** The metadata dict saved with a dataset. `stoppedEarly` is the `"stopped_early"` key:
      only the stopped path writes it (as `True`), so it is `None` on the finished paths. */
  datatype Metadata = Metadata(filters: Value, totalDeclarations: nat, totalRows: nat, stoppedEarly: Option<bool>,
                               status: Status)

  /** A dataset handed to the cache: records, metadata and failures. */
  datatype Saved = Saved(records: seq<Value>, meta: Metadata, failed: seq<FailedItem>)

  /** Overwrite status and message of the task `id` (present by construction). */
  function SetTask(reg: Registry, id: string, status: Status, message: string): (r: Registry)
    ensures r.held == reg.held && r.tasks.Keys == reg.tasks.Keys
    ensures forall other :: other in reg.tasks && other != id ==> r.tasks[other] == reg.tasks[other]
    ensures id in reg.tasks ==> r.tasks[id] == reg.tasks[id].(status := status, message := message)
  {
    if id in reg.tasks then reg.(tasks := reg.tasks[id := reg.tasks[id].(status := status, message := message)])
    else reg
  }

  /** Overwrite the message of the task `id`. */
  function SetMessage(reg: Registry, id: string, message: string): (r: Registry)
    ensures r.held == reg.held && r.tasks.Keys == reg.tasks.Keys
    ensures forall other :: other in reg.tasks && other != id ==> r.tasks[other] == reg.tasks[other]
    ensures id in reg.tasks ==> r.tasks[id] == reg.tasks[id].(message := message)
  {
    if id in reg.tasks then reg.(tasks := reg.tasks[id := reg.tasks[id].(message := message)])
    else reg
  }

  /** Overwrite the total of the task `id`. */
  function SetTotal(reg: Registry, id: string, total: int): (r: Registry)
    ensures r.held == reg.held && r.tasks.Keys == reg.tasks.Keys
    ensures forall other :: other in reg.tasks && other != id ==> r.tasks[other] == reg.tasks[other]
    ensures id in reg.tasks ==> r.tasks[id] == reg.tasks[id].(total := total)
  {
    if id in reg.tasks then reg.(tasks := reg.tasks[id := reg.tasks[id].(total := total)])
    else reg
  }

  /** The `except` branch: status `error`, message `Error: <text>`. */
  function Fail(reg: Registry, id: string, text: string): (r: Registry)
    ensures r.held == reg.held && r.tasks.Keys == reg.tasks.Keys
    ensures forall other :: other in reg.tasks && other != id ==> r.tasks[other] == reg.tasks[other]
    ensures id in reg.tasks ==> r.tasks[id].status == Error && r.tasks[id].message == "Error: " + text
    ensures id in reg.tasks ==> r.tasks[id].startTime == reg.tasks[id].startTime
  {
    SetTask(reg, id, Error, "Error: " + text)
  }

  /** The collector the worker builds from the filters dict. */
  function BuildCollector(filters: seq<(Key, Value)>): (c: Collector)
    ensures c.year == SafeInt(filters, "year", Some(DefaultYear)).value
    ensures c.offset == SafeInt(filters, "offset", Some(0)).value
    ensures c.limit == ClampLimit(SafeInt(filters, "limit", Some(MaxPageSize)))
    ensures c.declarantType == SafeInt(filters, "declarant_type", None)
    ensures c.tType == SafeInt(filters, "t_type", None)
    ensures c.instGroup == SafeInt(filters, "inst_group", None)
    ensures c.institution == SafeInt(filters, "institution", None)
    ensures c.declarationList == [] && c.declarantIds == [] && c.rowsById == [] && c.failedItems == []
  {
    NewCollector(SafeInt(filters, "year", Some(DefaultYear)).value,
                 SafeInt(filters, "declarant_type", None),
                 SafeInt(filters, "t_type", None),
                 SafeInt(filters, "inst_group", None),
                 SafeInt(filters, "institution", None),
                 SafeInt(filters, "offset", Some(0)).value,
                 SafeInt(filters, "limit", Some(MaxPageSize)),
                 Lookup(filters, KStr("retry_ids")).GetOr(Null))
  }

  /** `save_dataset(...)`: either the dataset is kept or the run fails with its error. */
  function Save(reg: Registry, id: string, data: Saved, env: WorkerEnv): (r: (Registry, Option<Saved>))
    ensures r.0.held == reg.held && r.0.tasks.Keys == reg.tasks.Keys
    ensures forall other :: other in reg.tasks && other != id ==> r.0.tasks[other] == reg.tasks[other]
    ensures env.saveError.None? ==> r == (reg, Some(data))
    ensures env.saveError.Some? ==> r.1.None? && (id in reg.tasks ==> r.0.tasks[id].status == Error)
    ensures id in reg.tasks ==> r.0.tasks[id].startTime == reg.tasks[id].startTime
  {
    match env.saveError
    case Some(e) => (Fail(reg, id, e), None)
    case None => (reg, Some(data))
  }

  /** `get_values`, `merge_and_save` and the save, for a run that ends `finished`
      (`stopped` false) or `stopped`. */
  function Finish(reg: Registry, id: string, c: Collector, filters: Value, env: WorkerEnv, stopped: bool)
    : (r: (Registry, Option<Saved>))
    requires id in reg.tasks
    ensures r.0.held == reg.held && r.0.tasks.Keys == reg.tasks.Keys
    ensures forall other :: other in reg.tasks && other != id ==> r.0.tasks[other] == reg.tasks[other]
    ensures r.0.tasks[id].startTime == reg.tasks[id].startTime
    ensures r.1.None? ==> r.0.tasks[id].status == Error
    ensures r.1.Some? ==> var s := r.1.value;
              && s.meta.totalRows == |s.records| && s.meta.totalDeclarations == |c.declarationList|
              && s.meta.stoppedEarly == (if stopped then Some(true) else None) && s.meta.filters == filters
              && s.meta.status == (if stopped then Stopped else Finished)
              && r.0.tasks[id].status == (if stopped then reg.tasks[id].status else Finished)
              && (!stopped ==> r.0.tasks[id].message == CompleteMessage)
              && (stopped ==> r.0.tasks[id].message == reg.tasks[id].message)
  {
    match GetValues(c)
    case Err(e) => (Fail(reg, id, Text(e)), None)
    case Ok(c1) =>
      match MergeAndSave(c1)
      case Err(e) => (Fail(reg, id, Text(e)), None)
      case Ok((_, records, failed)) =>
        var meta := Metadata(filters, |c.declarationList|, |records|, if stopped then Some(true) else None,
                            if stopped then Stopped else Finished);
        var (reg1, saved) := Save(reg, id, Saved(records, meta, failed), env);
        if !stopped && saved.Some? then (SetTask(reg1, id, Finished, CompleteMessage), saved)
        else (reg1, saved)
  }

  /** The detail download with its progress calls, and a stop request that arrives
      during or right after it. */
  function Download(reg: Registry, id: string, c: Collector, env: WorkerEnv): (r: (Registry, Collector))
    requires id in reg.tasks
    ensures r.0.held == reg.held && r.0.tasks.Keys == reg.tasks.Keys
    ensures forall other :: other in reg.tasks && other != id ==> r.0.tasks[other] == reg.tasks[other]
    ensures r.0.tasks[id].startTime == reg.tasks[id].startTime
    ensures reg.tasks[id].stopSet || env.stopAfterFetch ==> r.0.tasks[id].stopSet
    ensures r.0.tasks[id].stopSet ==>
              reg.tasks[id].stopSet || env.stopAfterFetch || exists j :: 0 <= j < |env.rounds| && env.rounds[j].stopSeen
    ensures r.1.declarationList == c.declarationList
    ensures var st := GetRowData(c, env.keyChain, env.detail, env.rounds).1;
            var t := r.0.tasks[id];
            && (|st.reports| == 0 ==> t.progress == reg.tasks[id].progress && t.total == reg.tasks[id].total
                                      && t.message == reg.tasks[id].message)
            && (|st.reports| > 0 ==>
                  var last := st.reports[|st.reports| - 1];
                  && t.progress == last.0 && t.total == last.1
                  && t.message == "Processed " + IntText(last.0) + " of " + IntText(last.1) + " items...")
            && t.status == (if st.stopped || env.stopAfterFetch then Stopping
                            else if |st.reports| > 0 then Processing else reg.tasks[id].status)
  {
    var (c1, st) := GetRowData(c, env.keyChain, env.detail, env.rounds);
    ApplyReportsEffect(reg, id, st.reports);
    var reg1 := ApplyReports(reg, id, st.reports);
    var reg2 := if st.stopped || env.stopAfterFetch then StopTask(reg1, id).0 else reg1;
    (reg2, c1)
  }

  /** The stop check after the download and the end of the run. */
  function Conclude(reg: Registry, id: string, c: Collector, filters: Value, env: WorkerEnv)
    : (r: (Registry, Option<Saved>))
    requires id in reg.tasks
    ensures r.0.held == reg.held && r.0.tasks.Keys == reg.tasks.Keys
    ensures forall other :: other in reg.tasks && other != id ==> r.0.tasks[other] == reg.tasks[other]
    ensures r.0.tasks[id].startTime == reg.tasks[id].startTime
    ensures Terminal(r.0.tasks[id].status)
    ensures r.1.None? <==> r.0.tasks[id].status == Error
    ensures r.1.Some? ==> var s := r.1.value;
              && s.meta.totalRows == |s.records| && s.meta.totalDeclarations == |c.declarationList|
              && s.meta.status == r.0.tasks[id].status
              && (s.meta.stoppedEarly == Some(true) <==> s.meta.status == Stopped)
              && (s.meta.status == Stopped <==> reg.tasks[id].stopSet)
              && (s.meta.status == Stopped ==> r.0.tasks[id].message == StoppedMessage)
              && (s.meta.status == Finished ==> r.0.tasks[id].message == CompleteMessage)
  {
    if reg.tasks[id].stopSet then
      Finish(SetTask(reg, id, Stopped, StoppedMessage), id, c, filters, env, true)
    else
      Finish(SetMessage(reg, id, FormattingMessage), id, c, filters, env, false)
  }

  /** Everything after the listing call: the early end when nothing was listed, else
      download, stop check and the end of the run. */
  function AfterListing(reg: Registry, id: string, c: Collector, filters: Value, env: WorkerEnv)
    : (r: (Registry, Option<Saved>))
    requires id in reg.tasks
    ensures r.0.held == reg.held && r.0.tasks.Keys == reg.tasks.Keys
    ensures forall other :: other in reg.tasks && other != id ==> r.0.tasks[other] == reg.tasks[other]
    ensures r.0.tasks[id].startTime == reg.tasks[id].startTime
    ensures Terminal(r.0.tasks[id].status)
    ensures r.1.None? <==> r.0.tasks[id].status == Error
    ensures r.0.tasks[id].status == Stopped ==>
              && |c.declarationList| > 0
              && (reg.tasks[id].stopSet || env.stopAfterFetch || exists j :: 0 <= j < |env.rounds| && env.rounds[j].stopSeen)
    ensures |c.declarationList| == 0 ==> r.0.tasks[id].status != Stopped
    ensures |c.declarationList| == 0 && r.1.Some? ==>
              r.0.tasks[id].message == NoDeclarationsMessage && r.1.value == Saved([], Metadata(filters, 0, 0, None, Finished), [])
    ensures r.1.Some? ==> var s := r.1.value;
              && s.meta.totalRows == |s.records| && s.meta.totalDeclarations == |c.declarationList|
              && s.meta.status == r.0.tasks[id].status
              && (s.meta.stoppedEarly == Some(true) <==> s.meta.status == Stopped)
              && (s.meta.status == Stopped ==> r.0.tasks[id].stopSet && r.0.tasks[id].message == StoppedMessage)
  {
    if |c.declarationList| == 0 then
      Save(SetTask(reg, id, Finished, NoDeclarationsMessage), id, Saved([], Metadata(filters, 0, 0, None, Finished), []), env)
    else
      var reg1 := SetMessage(SetTotal(reg, id, |c.declarationList|), id, DownloadingMessage);
      var (reg2, c1) := Download(reg1, id, c, env);
      Conclude(reg2, id, c1, filters, env)
  }

  /** The body of the worker's `try`, for a registered task. */
  function Collect(reg: Registry, id: string, filters: Value, env: WorkerEnv): (r: (Registry, Option<Saved>))
    requires id in reg.tasks
    ensures r.0.held == reg.held && r.0.tasks.Keys == reg.tasks.Keys
    ensures forall other :: other in reg.tasks && other != id ==> r.0.tasks[other] == reg.tasks[other]
    ensures r.0.tasks[id].startTime == reg.tasks[id].startTime
    ensures Terminal(r.0.tasks[id].status)
    ensures r.1.None? <==> r.0.tasks[id].status == Error
    ensures r.1.Some? ==> var s := r.1.value;
              && s.meta.totalRows == |s.records|
              && s.meta.status == r.0.tasks[id].status
              && (s.meta.stoppedEarly == Some(true) <==> s.meta.status == Stopped)
              && (s.meta.status == Stopped ==> r.0.tasks[id].stopSet && r.0.tasks[id].message == StoppedMessage)
    ensures r.0.tasks[id].status == Stopped ==>
              env.stopAfterFetch || exists j :: 0 <= j < |env.rounds| && env.rounds[j].stopSeen
  {
    match Subscript(filters, Str("row_name"))
    case Err(e) => (Fail(reg, id, Text(e)), None)
    case Ok(_) =>
      var c := BuildCollector(filters.fields);
      var reg1 := SetMessage(reg, id, FetchingMessage);
      var (c1, _, _) := GetDeclarations(c, reg1.tasks[id].stopSet, env.listing);
      AfterListing(reg1, id, c1, filters, env)
  }

  /** `_worker(task_id, filters, stop_event)`: the run, then the slot is released in
      every case, even when the task record is missing. */
  function RunWorker(reg: Registry, id: string, filters: Value, env: WorkerEnv): (r: (Registry, Option<Saved>))
    ensures r.0.held == Release(reg).held
    ensures r.0.tasks.Keys == reg.tasks.Keys
    ensures forall other :: other in reg.tasks && other != id ==> r.0.tasks[other] == reg.tasks[other]
    ensures id !in reg.tasks ==> r == (Release(reg), None)
    ensures id in reg.tasks ==> Terminal(r.0.tasks[id].status)
    ensures id in reg.tasks ==> r.0.tasks[id].startTime == reg.tasks[id].startTime
    ensures id in reg.tasks ==> (r.1.None? <==> r.0.tasks[id].status == Error)
    ensures r.1.Some? ==> var s := r.1.value;
              && s.meta.totalRows == |s.records|
              && s.meta.status == r.0.tasks[id].status
              && (s.meta.stoppedEarly == Some(true) <==> s.meta.status == Stopped)
              && (s.meta.status == Stopped ==> r.0.tasks[id].stopSet)
    ensures id in reg.tasks && r.0.tasks[id].status == Stopped ==>
              env.stopAfterFetch || exists j :: 0 <= j < |env.rounds| && env.rounds[j].stopSeen
  {
    if id !in reg.tasks then (Release(reg), None)
    else
      var reg0 := if env.stopBeforeListing then StopTask(reg, id).0 else reg;
      var (reg1, saved) := Collect(reg0, id, filters, env);
      (Release(reg1), saved)
  }

  /** A stop requested before the listing call never ends as `stopped`: the listing is
      skipped, nothing is listed, and the run ends `finished` with an empty dataset
      (or `error` when saving fails). */
  lemma StopBeforeListingFinishes(reg: Registry, id: string, filters: Value, env: WorkerEnv)
    requires id in reg.tasks && HasKey(filters, "row_name")
    requires reg.tasks[id].stopSet || env.stopBeforeListing
    ensures var r := RunWorker(reg, id, filters, env);
            && (env.saveError.None? ==>
                  && r.0.tasks[id].status == Finished && r.0.tasks[id].message == NoDeclarationsMessage
                  && r.1 == Some(Saved([], Metadata(filters, 0, 0, None, Finished), [])))
            && (env.saveError.Some? ==> r.0.tasks[id].status == Error && r.1.None?)
  {
    var reg0 := if env.stopBeforeListing then StopTask(reg, id).0 else reg;
    assert reg0.tasks[id].stopSet;
    assert Subscript(filters, Str("row_name")).Ok?;
    var c := BuildCollector(filters.fields);
    var reg1 := SetMessage(reg0, id, FetchingMessage);
    assert reg1.tasks[id].stopSet;
    assert GetDeclarations(c, true, env.listing).0 == c;
    var r1 := AfterListing(reg1, id, c, filters, env);
    assert r1 == Save(SetTask(reg1, id, Finished, NoDeclarationsMessage), id,
                      Saved([], Metadata(filters, 0, 0, None, Finished), []), env);
    assert Collect(reg0, id, filters, env) == r1;
    assert RunWorker(reg, id, filters, env) == (Release(r1.0), r1.1);
  }

  /** Filters without a row name end the run with the KeyError text and no dataset. */
  lemma MissingRowNameFails(reg: Registry, id: string, filters: Value, env: WorkerEnv)
    requires id in reg.tasks && filters.Obj? && !HasKey(filters, "row_name")
    ensures RunWorker(reg, id, filters, env).0.tasks[id].status == Error
    ensures RunWorker(reg, id, filters, env).0.tasks[id].message == "Error: 'row_name'"
    ensures RunWorker(reg, id, filters, env).1.None?
  {
    assert Subscript(filters, Str("row_name")) == Err(KeyError(KStr("row_name")));
  }

  /** What happens to the server: a start request (with its fresh id and time), or the
      end of the `j`-th running worker with the world it saw. */
  datatype Event = Submit(id: string, now: int) | WorkerEnds(j: nat, filters: Value, env: WorkerEnv)

  /** The registry and the ids of the workers started and not yet ended. */
  datatype Server = Server(reg: Registry, running: seq<string>)

  function Step(s: Server, e: Event): (r: Server)
    ensures e.Submit? && s.reg.held >= Capacity ==> r == s
  {
    match e
    case Submit(id, now) =>
      (match StartCollectionTask(s.reg, id, now)
       case Ok(reg) => Server(reg, s.running + [id])
       case Err(_) => s)
    case WorkerEnds(j, filters, env) =>
      if j < |s.running| then
        Server(RunWorker(s.reg, s.running[j], filters, env).0, s.running[..j] + s.running[j + 1..])
      else s
  }

  function Run(s: Server, events: seq<Event>): Server
    decreases |events|
  {
    if |events| == 0 then s else Run(Step(s, events[0]), events[1..])
  }

  /** Held slots count the running workers, and never more than two run at once. */
  ghost predicate Admitted(s: Server) {
    s.reg.held == |s.running| && |s.running| <= Capacity
  }

  /** Every event keeps the slot count equal to the number of running workers. */
  lemma StepAdmitted(s: Server, e: Event)
    requires Admitted(s)
    ensures Admitted(Step(s, e))
  {
  }

  /** Over any sequence of requests and worker ends, at most two collections run at
      once and every ended worker gave its slot back. */
  lemma {:induction false} RunAdmitted(s: Server, events: seq<Event>)
    requires Admitted(s)
    ensures Admitted(Run(s, events))
    decreases |events|
  {
    if |events| > 0 {
      StepAdmitted(s, events[0]);
      RunAdmitted(Step(s, events[0]), events[1..]);
    }
  }

  /** Starting from an empty registry, a request is refused exactly when two workers
      are running. */
  lemma BusyExactlyWhenFull(events: seq<Event>, id: string, now: int)
    ensures var s := Run(Server(EmptyRegistry(), []), events);
            StartCollectionTask(s.reg, id, now).Err? <==> |s.running| == Capacity
  {
    RunAdmitted(Server(EmptyRegistry(), []), events);
  }
}
