/**
 * The request handlers of app/routes/home.py that decide something: the language
 * switch, the puzzle route's session update, and `start_process`, which checks the
 * CAPTCHA, builds the filters and asks the task manager for a slot; plus the status
 * and stop routes. Rendering, redirects and JSON encoding are outside the model.
 */
module Home {
  import opened Wrappers
  import opened Values
  import opened Tasks
  import opened Captcha
  import opened Collector

  const NoJsonError: string := "No JSON data received"
  const CaptchaFail: string := "CAPTCHA_FAIL"
  const MissingFields: string := "MISSING_FIELDS"
  const DefaultLimit: int := 100

  /** The Flask session as these routes use it. */
  datatype Session = Session(lang: Option<string>, captchaSolution: Option<seq<int>>)

  /** The JSON reply of `start_process` with its HTTP status. */
  datatype Reply = Started(taskId: string) | Rejected(code: nat, error: string)

  /** `set_language`: only the two supported languages are stored. */
  function SetLanguage(session: Session, code: string): (r: Session)
    ensures r.captchaSolution == session.captchaSolution
    ensures code == "en" || code == "hy" ==> r.lang == Some(code)
    ensures code != "en" && code != "hy" ==> r == session
  {
    if code == "en" || code == "hy" then session.(lang := Some(code)) else session
  }

  /** The puzzle route keeps the new puzzle's solution in the session, replacing any
      earlier one. */
  function RememberPuzzle(session: Session, p: Puzzle): (r: Session)
    ensures r.lang == session.lang && r.captchaSolution == Some(p.solution)
  {
    session.(captchaSolution := Some(p.solution))
  }

  /** `clean_int`: falsy values and text `int()` rejects become `None`, and so do
      numbers that are not positive; other conversion errors propagate. */
  function CleanInt(v: Value): (r: Result<Option<int>, Exc>)
    ensures !Truthy(v) ==> r == Ok(None)
    ensures r.Ok? && r.value.Some? ==> r.value.value > 0 && PyInt(v) == Ok(r.value.value)
    ensures Truthy(v) && PyInt(v).Ok? && PyInt(v).value > 0 ==> r == Ok(Some(PyInt(v).value))
    ensures r.Err? <==> Truthy(v) && PyInt(v).Err? && PyInt(v).error != ValueError
  {
    if !Truthy(v) then Ok(None)
    else
      match PyInt(v)
      case Ok(i) => Ok(if i > 0 then Some(i) else None)
      case Err(ValueError) => Ok(None)
      case Err(e) => Err(e)
  }

  /** `required_int`: any conversion failure gives 0. */
  function RequiredInt(v: Value): (r: int)
    ensures PyInt(v).Ok? ==> r == PyInt(v).value
    ensures PyInt(v).Err? ==> r == 0
  {
    match PyInt(v)
    case Ok(i) => i
    case Err(_) => 0
  }

  /** `[int(x) for x in selection]`. */
  function SelectionInts(xs: seq<Value>): (r: Result<seq<int>, Exc>)
    ensures r.Ok? <==> forall i :: 0 <= i < |xs| ==> PyInt(xs[i]).Ok?
    ensures r.Ok? ==> |r.value| == |xs| && forall i :: 0 <= i < |xs| ==> r.value[i] == PyInt(xs[i]).value
    decreases |xs|
  {
    if |xs| == 0 then Ok([])
    else
      var x :- PyInt(xs[0]);
      var rest :- SelectionInts(xs[1..]);
      Ok([x] + rest)
  }

  /** `raw.get(key, default)` on the request body, known to be a dict. */
  function Field(raw: seq<(Key, Value)>, key: string, default: Value): (r: Value)
    ensures Lookup(raw, KStr(key)).Some? ==> r == Lookup(raw, KStr(key)).value
    ensures Lookup(raw, KStr(key)).None? ==> r == default
  {
    Lookup(raw, KStr(key)).GetOr(default)
  }

  /** The filters dict built from the request body. */
  function BuildFilters(raw: seq<(Key, Value)>): (r: Result<seq<(Key, Value)>, Exc>)
    ensures r.Ok? <==> CleanInt(Field(raw, "declarant_type", Null)).Ok? && CleanInt(Field(raw, "t_type", Null)).Ok?
                       && CleanInt(Field(raw, "inst_group", Null)).Ok? && CleanInt(Field(raw, "institution", Null)).Ok?
  {
    var declarantType :- CleanInt(Field(raw, "declarant_type", Null));
    var tType :- CleanInt(Field(raw, "t_type", Null));
    var instGroup :- CleanInt(Field(raw, "inst_group", Null));
    var institution :- CleanInt(Field(raw, "institution", Null));
    Ok(FilterEntries(raw, declarantType, tType, instGroup, institution))
  }

  /** The filters dict, once the four optional criteria are cleaned. */
  function FilterEntries(raw: seq<(Key, Value)>, declarantType: Option<int>, tType: Option<int>,
                         instGroup: Option<int>, institution: Option<int>): (r: seq<(Key, Value)>)
    ensures |r| == 9 && DistinctKeys(r)
    ensures forall i :: 0 <= i < |r| ==> r[i].0.KStr? && |r[i].0.s| > 0
  {
    var limitArg := Field(raw, "limit", Null);
    [ (KStr("row_name"), Field(raw, "row_name", Null)),
      (KStr("year"), Int(RequiredInt(Field(raw, "year", Null)))),
      (KStr("declarant_type"), OptValue(declarantType)),
      (KStr("t_type"), OptValue(tType)),
      (KStr("inst_group"), OptValue(instGroup)),
      (KStr("institution"), OptValue(institution)),
      (KStr("limit"), Int(RequiredInt(if Truthy(limitArg) then limitArg else Int(DefaultLimit)))),
      (KStr("offset"), Int(RequiredInt(Field(raw, "offset", Null)))),
      (KStr("retry_ids"), Field(raw, "retry_ids", List([])))]
  }

  /** The filters hold the body's row name, its year and offset as `required_int`
      reads them, the four criteria as `clean_int` reads them, the limit with 100 for
      a falsy one, and the retry ids (an empty list when absent). */
  lemma FiltersCarry(raw: seq<(Key, Value)>)
    requires BuildFilters(raw).Ok?
    ensures var f := BuildFilters(raw).value;
            && Lookup(f, KStr("row_name")) == Some(Field(raw, "row_name", Null))
            && Lookup(f, KStr("year")) == Some(Int(RequiredInt(Field(raw, "year", Null))))
            && Lookup(f, KStr("declarant_type")) == Some(OptValue(CleanInt(Field(raw, "declarant_type", Null)).value))
            && Lookup(f, KStr("t_type")) == Some(OptValue(CleanInt(Field(raw, "t_type", Null)).value))
            && Lookup(f, KStr("inst_group")) == Some(OptValue(CleanInt(Field(raw, "inst_group", Null)).value))
            && Lookup(f, KStr("institution")) == Some(OptValue(CleanInt(Field(raw, "institution", Null)).value))
            && Lookup(f, KStr("limit"))
               == Some(Int(RequiredInt(if Truthy(Field(raw, "limit", Null)) then Field(raw, "limit", Null) else Int(100))))
            && Lookup(f, KStr("offset")) == Some(Int(RequiredInt(Field(raw, "offset", Null))))
            && Lookup(f, KStr("retry_ids")) == Some(Field(raw, "retry_ids", List([])))
  {
    var a := CleanInt(Field(raw, "declarant_type", Null)).value;
    var b := CleanInt(Field(raw, "t_type", Null)).value;
    var c := CleanInt(Field(raw, "inst_group", Null)).value;
    var d := CleanInt(Field(raw, "institution", Null)).value;
    assert BuildFilters(raw).value == FilterEntries(raw, a, b, c, d);
    FilterEntriesCarry(raw, a, b, c, d);
  }

  /** Each of the nine filter keys occurs once, so a lookup finds the entry built for it. */
  lemma FilterEntriesCarry(raw: seq<(Key, Value)>, a: Option<int>, b: Option<int>, c: Option<int>, d: Option<int>)
    ensures var f := FilterEntries(raw, a, b, c, d);
            && Lookup(f, KStr("row_name")) == Some(Field(raw, "row_name", Null))
            && Lookup(f, KStr("year")) == Some(Int(RequiredInt(Field(raw, "year", Null))))
            && Lookup(f, KStr("declarant_type")) == Some(OptValue(a))
            && Lookup(f, KStr("t_type")) == Some(OptValue(b))
            && Lookup(f, KStr("inst_group")) == Some(OptValue(c))
            && Lookup(f, KStr("institution")) == Some(OptValue(d))
            && Lookup(f, KStr("limit"))
               == Some(Int(RequiredInt(if Truthy(Field(raw, "limit", Null)) then Field(raw, "limit", Null) else Int(DefaultLimit))))
            && Lookup(f, KStr("offset")) == Some(Int(RequiredInt(Field(raw, "offset", Null))))
            && Lookup(f, KStr("retry_ids")) == Some(Field(raw, "retry_ids", List([])))
  {
    var f := FilterEntries(raw, a, b, c, d);
    assert DistinctKeys(f);
    forall j | 0 <= j < |f| ensures Lookup(f, f[j].0) == Some(f[j].1) {
      LookupFirst(f, j);
    }
    assert f[0].0 == KStr("row_name") && f[1].0 == KStr("year") && f[2].0 == KStr("declarant_type");
    assert f[3].0 == KStr("t_type") && f[4].0 == KStr("inst_group") && f[5].0 == KStr("institution");
    assert f[6].0 == KStr("limit") && f[7].0 == KStr("offset") && f[8].0 == KStr("retry_ids");
  }

  /** Whether the filters carry what a collection needs: a row name and a year. */
  predicate HasRequiredFields(filters: seq<(Key, Value)>) {
    Truthy(Lookup(filters, KStr("row_name")).GetOr(Null)) && Lookup(filters, KStr("year")).GetOr(Int(0)) != Int(0)
  }

  /** `start_process`, given the session, the decoded JSON body (`Null` for a JSON
      `null`), the registry, and the id and time a new task would get. */
  function StartProcess(session: Session, raw: Value, reg: Registry, id: string, now: int)
    : (r: (Session, Registry, Reply))
    ensures !Truthy(raw) ==> r == (session, reg, Rejected(400, NoJsonError))
    ensures Truthy(raw) && !raw.Obj? ==> r.0 == session && r.1 == reg && r.2.Rejected? && r.2.code == 500
    ensures raw.Obj? && Truthy(raw) ==> r.0 == session.(captchaSolution := None)
    ensures r.2.Rejected? ==> r.1 == reg
    ensures r.2.Started? ==> r.2.taskId == id && StartCollectionTask(reg, id, now) == Ok(r.1)
    ensures r.2.Started? ==> raw.Obj? && BuildFilters(raw.fields).Ok? && HasRequiredFields(BuildFilters(raw.fields).value)
    ensures r.2.Started? ==> session.captchaSolution.Some? && |session.captchaSolution.value| > 0
  {
    if !Truthy(raw) then (session, reg, Rejected(400, NoJsonError))
    else if !raw.Obj? then (session, reg, Rejected(500, Text(AttributeError)))
    else
      var selection := Field(raw.fields, "captcha_selection", List([]));
      var solution := session.captchaSolution;
      var s1 := session.(captchaSolution := None);
      if solution.None? || |solution.value| == 0 || !Truthy(selection) then (s1, reg, Rejected(400, CaptchaFail))
      else
        match Iter(selection)
        case Err(e) => (s1, reg, Rejected(500, Text(e)))
        case Ok(items) =>
          match SelectionInts(items)
          case Err(e) => (s1, reg, Rejected(500, Text(e)))
          case Ok(ints) =>
            if Sort(ints) != solution.value then (s1, reg, Rejected(400, CaptchaFail))
            else
              match BuildFilters(raw.fields)
              case Err(e) => (s1, reg, Rejected(500, Text(e)))
              case Ok(filters) =>
                if !HasRequiredFields(filters) then (s1, reg, Rejected(400, MissingFields))
                else
                  match StartCollectionTask(reg, id, now)
                  case Err(msg) => (s1, reg, Rejected(500, msg))
                  case Ok(reg1) => (s1, reg1, Started(id))
  }

  /** The selection in the body, as integers, when every element converts. */
  function SelectionOf(raw: seq<(Key, Value)>): Option<seq<int>> {
    match Iter(Field(raw, "captcha_selection", List([])))
    case Err(_) => None
    case Ok(items) =>
      match SelectionInts(items)
      case Err(_) => None
      case Ok(ints) => Some(ints)
  }

  /** A collection starts exactly when the body is a non-empty dict, a puzzle was
      pending, the selection is non-empty and names the solution's cells in any order,
      the filters build and carry a row name and a year, and a slot is free. */
  lemma StartedExactly(session: Session, raw: Value, reg: Registry, id: string, now: int)
    requires session.captchaSolution.Some? ==> Sorted(session.captchaSolution.value)
    ensures StartProcess(session, raw, reg, id, now).2.Started? <==>
              && raw.Obj? && Truthy(raw)
              && session.captchaSolution.Some? && |session.captchaSolution.value| > 0
              && Truthy(Field(raw.fields, "captcha_selection", List([])))
              && SelectionOf(raw.fields).Some?
              && multiset(SelectionOf(raw.fields).value) == multiset(session.captchaSolution.value)
              && BuildFilters(raw.fields).Ok? && HasRequiredFields(BuildFilters(raw.fields).value)
              && reg.held < Capacity
  {
    if raw.Obj? && Truthy(raw) && session.captchaSolution.Some? && SelectionOf(raw.fields).Some? {
      SelectionOrderIrrelevant(SelectionOf(raw.fields).value, session.captchaSolution.value);
    }
  }

  /** The rejections of a dict body, in the order the route checks them: no pending
      puzzle or an empty selection, then a selection that does not convert (500) or does
      not sort to the solution, then filters that raise (500) or lack a row name or year. */
  lemma RejectionReplies(session: Session, raw: Value, reg: Registry, id: string, now: int)
    requires raw.Obj? && Truthy(raw)
    ensures var r := StartProcess(session, raw, reg, id, now).2;
            var sol := session.captchaSolution;
            var passed := sol.Some? && |sol.value| > 0 && Truthy(Field(raw.fields, "captcha_selection", List([])));
            && (!passed ==> r == Rejected(400, CaptchaFail))
            && (passed && SelectionOf(raw.fields).None? ==> r.Rejected? && r.code == 500)
            && (passed && SelectionOf(raw.fields).Some? && Sort(SelectionOf(raw.fields).value) != sol.value ==>
                  r == Rejected(400, CaptchaFail))
            && (passed && SelectionOf(raw.fields).Some? && Sort(SelectionOf(raw.fields).value) == sol.value ==>
                  && (BuildFilters(raw.fields).Err? ==> r == Rejected(500, Text(BuildFilters(raw.fields).error)))
                  && (BuildFilters(raw.fields).Ok? && !HasRequiredFields(BuildFilters(raw.fields).value) ==>
                        r == Rejected(400, MissingFields)))
  {
  }

  /** A solution is good for one attempt: after any call that read it, the next call
      cannot start a collection, whatever it sends. */
  lemma CaptchaSingleUse(session: Session, raw: Value, raw2: Value, reg: Registry, id: string, id2: string, now: int)
    requires raw.Obj? && Truthy(raw)
    ensures var r := StartProcess(session, raw, reg, id, now);
            !StartProcess(r.0, raw2, r.1, id2, now).2.Started?
  {
  }

  /** While two collections run nothing starts, and a request that an idle server
      would accept is answered with the busy message and status 500. */
  lemma BusyRefused(session: Session, raw: Value, reg: Registry, id: string, now: int)
    requires reg.held >= Capacity
    ensures StartProcess(session, raw, reg, id, now).1 == reg
    ensures StartProcess(session, raw, reg, id, now).2.Rejected?
    ensures StartProcess(session, raw, EmptyRegistry(), id, now).2.Started? ==>
              StartProcess(session, raw, reg, id, now).2 == Rejected(500, BusyMessage)
  {
  }

  /** `status(task_id)`: 404 with `unknown` for an unknown id, else the task view. */
  function StatusRoute(reg: Registry, id: string): (r: (nat, Option<TaskView>))
    ensures r.0 == 404 <==> id !in reg.tasks
    ensures r.0 == 200 <==> id in reg.tasks
    ensures r.1 == GetTaskStatus(reg, id)
  {
    var info := GetTaskStatus(reg, id);
    if info.None? then (404, None) else (200, info)
  }

  /** `stop_process(task_id)`: stop the task and answer `success` with whether it exists. */
  function StopRoute(reg: Registry, id: string): (r: (Registry, bool))
    ensures r.1 <==> id in reg.tasks
    ensures r.0.held == reg.held && r.0.tasks.Keys == reg.tasks.Keys
    ensures id in reg.tasks ==> r.0.tasks[id] == reg.tasks[id].(stopSet := true, status := Stopping)
    ensures forall o :: o in reg.tasks && o != id ==> r.0.tasks[o] == reg.tasks[o]
  {
    StopTask(reg, id)
  }
}
