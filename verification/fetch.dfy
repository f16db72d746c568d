/**
 * The detail-fetch phase of core/cpc_data_collector.py: `_fetch_single_row` (request
 * outcome plus key-chain traversal) and `get_row_data` (the poll loop over the worker
 * pool), sequentialised as a fold over the rounds in which completions are observed.
 */
module Fetch {
  import opened Wrappers
  import opened Values
  import opened Collector

  const SectionNotFound: string := "Data section not found"
  const InvalidJson: string := "Invalid JSON"
  const StoppedReason: string := "Stopped"

  /** A key of the detail path: an all-digit key is used as an integer index. */
  function PathKey(key: string): (k: Value)
    ensures AllDigits(key) ==> k == Int(DigitsValue(key))
    ensures !AllDigits(key) ==> k == Str(key)
  {
    if AllDigits(key) then Int(DigitsValue(key)) else Str(key)
  }

  /** `for key in key_chain: section = section[key]`. */
  function Traverse(v: Value, chain: seq<string>): (r: Result<Value, Exc>)
    ensures r.Err? ==> r.error.KeyError? || r.error == IndexError || r.error == TypeError
    ensures |chain| == 0 ==> r == Ok(v)
    ensures |chain| == 1 ==> r == Subscript(v, PathKey(chain[0]))
    decreases |chain|
  {
    if |chain| == 0 then Ok(v)
    else
      var next :- Subscript(v, PathKey(chain[0]));
      Traverse(next, chain[1..])
  }

  /** Following a chain in two pieces is following the whole chain. */
  lemma {:induction false} TraverseAppend(v: Value, a: seq<string>, b: seq<string>)
    ensures Traverse(v, a).Err? ==> Traverse(v, a + b) == Traverse(v, a)
    ensures Traverse(v, a).Ok? ==> Traverse(v, a + b) == Traverse(Traverse(v, a).value, b)
    decreases |a|
  {
    if |a| > 0 {
      assert (a + b)[0] == a[0];
      assert (a + b)[1..] == a[1..] + b;
      match Subscript(v, PathKey(a[0]))
      case Err(_) =>
      case Ok(next) => TraverseAppend(next, a[1..], b);
    } else {
      assert a + b == b;
    }
  }

  /** An all-digit key never reaches a dict entry: JSON dict keys are strings and the
      digit key has become an integer. */
  lemma DigitKeyMissesDictEntry(x: Value)
    ensures Traverse(Obj([(KStr("0"), x)]), ["0"]) == Err(KeyError(KInt(0)))
  {
    assert AllDigits("0");
    assert DigitsValue("0") == 0;
    assert ["0"][1..] == [];
  }

  /** What the worker pool observes for one id: the stop signal already set when the
      task started, or the outcome of the detail request. */
  datatype FetchInput = SawStop | Answered(response: Response)

  /** The pair `(result, error_reason)` of `_fetch_single_row`; `Null` is Python's `None`. */
  datatype RowResult = RowResult(section: Value, reason: Option<string>)

  /** `_fetch_single_row`: the reached section, or `None` with the reason. */
  function FetchSingleRow(chain: seq<string>, input: FetchInput): (r: RowResult)
    ensures r.reason.None? <==> input.Answered? && input.response.Body? && Traverse(input.response.json, chain).Ok?
    ensures r.reason.None? ==> r.section == Traverse(input.response.json, chain).value
    ensures r.reason.Some? ==> r.section == Null
    ensures input.SawStop? ==> r.reason == Some(StoppedReason)
    ensures input.Answered? && input.response.Failure? ==> r.reason == Some(input.response.message)
    ensures input.Answered? && input.response.BadJson? ==> r.reason == Some(InvalidJson)
    ensures input.Answered? && input.response.Body? && Traverse(input.response.json, chain).Err?
            ==> r.reason == Some(SectionNotFound)
  {
    match input
    case SawStop => RowResult(Null, Some(StoppedReason))
    case Answered(Failure(m)) => RowResult(Null, Some(m))
    case Answered(BadJson) => RowResult(Null, Some(InvalidJson))
    case Answered(Body(b)) =>
      match Traverse(b, chain)
      case Err(_) => RowResult(Null, Some(SectionNotFound))
      case Ok(v) => RowResult(v, None)
  }

  /** One pass of the poll loop: whether the stop signal was seen at the top of the
      loop, and the submission indices of the futures `wait` reported done. */
  datatype Round = Round(stopSeen: bool, done: seq<nat>)

  /** The loop's state: futures not yet processed (by submission index), the two
      result containers, the completion counter, the progress calls made so far as
      `(completed, total)` pairs, and whether the loop broke on the stop signal. */
  datatype FetchState = FetchState(
    pending: set<nat>,
    rowsById: seq<(Key, Value)>,
    failedItems: seq<FailedItem>,
    completed: nat,
    reports: seq<(nat, nat)>,
    stopped: bool)

  /** Processing one done future: file its result, count it, report progress. */
  function Complete(st: FetchState, ids: seq<Value>, results: seq<RowResult>, i: nat): (r: FetchState)
    requires i in st.pending && i < |ids| && |results| == |ids|
    ensures r.pending == st.pending - {i}
    ensures r.completed == st.completed + 1
    ensures r.reports == st.reports + [(st.completed + 1, |ids|)]
    ensures r.stopped == st.stopped
  {
    var id := ids[i];
    var res := results[i];
    var filed :=
      if res.section != Null then
        match ToKey(id)
        case Ok(k) => st.(rowsById := Store(st.rowsById, k, res.section))
        case Err(e) => st.(failedItems := st.failedItems + [FailedItem(id, Some(Text(e)))])
      else st.(failedItems := st.failedItems + [FailedItem(id, res.reason)]);
    filed.(pending := st.pending - {i}, completed := st.completed + 1,
           reports := st.reports + [(st.completed + 1, |ids|)])
  }

  /** The progress calls `(1, n), (2, n), ..., (k, n)`. */
  function Reports(k: nat, n: nat): (r: seq<(nat, nat)>)
    ensures |r| == k
    ensures forall j :: 0 <= j < k ==> r[j] == (j + 1, n)
  {
    seq(k, j requires 0 <= j < k => (j + 1, n))
  }

  /** Counting invariant: every future is pending or counted, and the progress calls
      so far are exactly `(1, n) .. (completed, n)`. */
  ghost predicate Counted(st: FetchState, n: nat) {
    && (forall i :: i in st.pending ==> i < n)
    && st.completed + |st.pending| == n
    && st.reports == Reports(st.completed, n)
  }

  /** Ids are hashable and pairwise distinct as dict keys. */
  ghost predicate DistinctIds(ids: seq<Value>) {
    && (forall i :: 0 <= i < |ids| ==> ToKey(ids[i]).Ok?)
    && (forall i, j :: 0 <= i < j < |ids| ==> ToKey(ids[i]) != ToKey(ids[j]))
  }

  /** Some failed item carries this id. */
  ghost predicate Reported(failed: seq<FailedItem>, id: Value) {
    exists f :: f in failed && f.id == id
  }

  /** Where id `i` stands: untouched while pending, otherwise filed on exactly one
      side according to its result. */
  ghost predicate Filed(st: FetchState, ids: seq<Value>, results: seq<RowResult>, i: nat)
    requires i < |ids| && |results| == |ids| && ToKey(ids[i]).Ok?
  {
    var k := ToKey(ids[i]).value;
    if i in st.pending then
      Lookup(st.rowsById, k).None? && !Reported(st.failedItems, ids[i])
    else if results[i].section != Null then
      Lookup(st.rowsById, k) == Some(results[i].section) && !Reported(st.failedItems, ids[i])
    else
      Lookup(st.rowsById, k).None? && FailedItem(ids[i], results[i].reason) in st.failedItems
  }

  /** The partition invariant over all ids, plus the size of the two containers. */
  ghost predicate Partitioned(st: FetchState, ids: seq<Value>, results: seq<RowResult>)
    requires |results| == |ids| && DistinctIds(ids)
  {
    && (forall i :: 0 <= i < |ids| ==> Filed(st, ids, results, i))
    && |st.rowsById| + |st.failedItems| + |st.pending| == |ids|
  }

  /** Filing id `i` keeps every other id where it was. */
  lemma CompleteKeepsOthers(st: FetchState, ids: seq<Value>, results: seq<RowResult>, i: nat, j: nat)
    requires i in st.pending && i < |ids| && |results| == |ids| && DistinctIds(ids)
    requires j < |ids| && j != i && Filed(st, ids, results, j)
    ensures Filed(Complete(st, ids, results, i), ids, results, j)
  {
    var r := Complete(st, ids, results, i);
    var ki := ToKey(ids[i]).value;
    var kj := ToKey(ids[j]).value;
    if i < j {
      assert ToKey(ids[i]) != ToKey(ids[j]);
    } else {
      assert ToKey(ids[j]) != ToKey(ids[i]);
    }
    assert ki != kj;
    assert ids[i] != ids[j];
    assert Lookup(r.rowsById, kj) == Lookup(st.rowsById, kj);
    assert Reported(r.failedItems, ids[j]) == Reported(st.failedItems, ids[j]) by {
      if Reported(r.failedItems, ids[j]) {
        var f :| f in r.failedItems && f.id == ids[j];
        assert f in st.failedItems;
      }
    }
  }

  /** Filing a pending id files it on the side its result says, and keeps the count. */
  lemma CompletePreserves(st: FetchState, ids: seq<Value>, results: seq<RowResult>, i: nat)
    requires i in st.pending && i < |ids| && |results| == |ids| && DistinctIds(ids)
    requires Partitioned(st, ids, results)
    ensures Partitioned(Complete(st, ids, results, i), ids, results)
  {
    var r := Complete(st, ids, results, i);
    forall j | 0 <= j < |ids| ensures Filed(r, ids, results, j) {
      if j != i {
        CompleteKeepsOthers(st, ids, results, i, j);
      } else {
        assert Filed(st, ids, results, i);
        var k := ToKey(ids[i]).value;
        if results[i].section != Null {
          assert r.failedItems == st.failedItems;
          assert r.rowsById == Store(st.rowsById, k, results[i].section);
        } else {
          assert r.rowsById == st.rowsById;
          assert r.failedItems[|r.failedItems| - 1] == FailedItem(ids[i], results[i].reason);
        }
      }
    }
    assert |r.pending| == |st.pending| - 1;
    var k := ToKey(ids[i]).value;
    assert Filed(st, ids, results, i);
    if results[i].section != Null {
      assert Lookup(st.rowsById, k).None?;
      assert |r.rowsById| == |st.rowsById| + 1;
    } else {
      assert |r.failedItems| == |st.failedItems| + 1;
    }
  }

  /** Processing the futures one `wait` reported done, skipping any already processed. */
  function ProcessDone(st: FetchState, ids: seq<Value>, results: seq<RowResult>, done: seq<nat>): (r: FetchState)
    requires |results| == |ids|
    ensures r.pending <= st.pending
    ensures forall j :: 0 <= j < |done| && done[j] < |ids| ==> done[j] !in r.pending
    ensures r.stopped == st.stopped
    ensures Counted(st, |ids|) ==> Counted(r, |ids|)
    ensures DistinctIds(ids) && Partitioned(st, ids, results) ==> Partitioned(r, ids, results)
    decreases |done|
  {
    if |done| == 0 then st
    else
      var i := done[0];
      var st' := if i in st.pending && i < |ids| then Complete(st, ids, results, i) else st;
      assert DistinctIds(ids) && Partitioned(st, ids, results) ==> Partitioned(st', ids, results) by {
        if DistinctIds(ids) && Partitioned(st, ids, results) && i in st.pending && i < |ids| {
          CompletePreserves(st, ids, results, i);
        }
      }
      assert Counted(st, |ids|) ==> Counted(st', |ids|) by {
        if Counted(st, |ids|) && i in st.pending && i < |ids| {
          assert |st'.pending| == |st.pending| - 1;
          assert st'.reports == Reports(st'.completed, |ids|);
        }
      }
      ProcessDone(st', ids, results, done[1..])
  }

  /** Submission order `0, 1, ..., n - 1`: how the futures left after the last
      listed round are taken to complete. */
  function Drain(n: nat): (r: seq<nat>)
    ensures |r| == n && forall j :: 0 <= j < n ==> r[j] == j
  {
    seq(n, j requires 0 <= j < n => j)
  }

  /** The poll loop: `while futures_set`, break on the stop signal, else process a round.
      Futures still pending after the listed rounds complete in submission order. */
  function ProcessRounds(st: FetchState, ids: seq<Value>, results: seq<RowResult>, rounds: seq<Round>): (r: FetchState)
    requires |results| == |ids|
    requires !st.stopped
    ensures r.pending <= st.pending
    ensures Counted(st, |ids|) && !r.stopped ==> r.pending == {}
    ensures r.stopped ==> exists j :: 0 <= j < |rounds| && rounds[j].stopSeen
    ensures (forall j :: 0 <= j < |rounds| ==> !rounds[j].stopSeen) ==> !r.stopped
    ensures Counted(st, |ids|) ==> Counted(r, |ids|)
    ensures DistinctIds(ids) && Partitioned(st, ids, results) ==> Partitioned(r, ids, results)
    decreases |rounds|
  {
    if st.pending == {} then st
    else if |rounds| == 0 then
      var r := ProcessDone(st, ids, results, Drain(|ids|));
      assert forall i :: 0 <= i < |ids| ==> i !in r.pending by {
        forall i | 0 <= i < |ids| ensures i !in r.pending {
          assert Drain(|ids|)[i] == i;
        }
      }
      assert Counted(st, |ids|) ==> r.pending == {} by {
        if Counted(st, |ids|) {
          assert forall i :: i in r.pending ==> i < |ids|;
        }
      }
      r
    else if rounds[0].stopSeen then
      var r := st.(stopped := true);
      assert DistinctIds(ids) && Partitioned(st, ids, results) ==> Partitioned(r, ids, results) by {
        if DistinctIds(ids) && Partitioned(st, ids, results) {
          forall i | 0 <= i < |ids| ensures Filed(r, ids, results, i) {
            assert Filed(st, ids, results, i);
          }
        }
      }
      r
    else
      var r := ProcessRounds(ProcessDone(st, ids, results, rounds[0].done), ids, results, rounds[1..]);
      assert r.stopped ==> exists j :: 0 <= j < |rounds| && rounds[j].stopSeen by {
        if r.stopped {
          var j :| 0 <= j < |rounds[1..]| && rounds[1..][j].stopSeen;
          assert rounds[j + 1].stopSeen;
        }
      }
      r
  }

  /** The set `{0, ..., n - 1}` of submission indices, and its size. */
  function Indices(n: nat): (s: set<nat>)
    ensures |s| == n
    ensures forall i: nat :: i in s <==> i < n
  {
    if n == 0 then {} else
      var s := Indices(n - 1);
      assert n - 1 !in s;
      s + {n - 1}
  }

  /** The loop's starting state for a collector. */
  function Start(c: Collector): (st: FetchState)
    ensures Counted(st, |c.declarantIds|)
  {
    FetchState(Indices(|c.declarantIds|), c.rowsById, c.failedItems, 0, [], false)
  }

  /** `get_row_data`: nothing happens without a configured path or without ids;
      otherwise every id's result is computed and the poll loop runs over the rounds. */
  function GetRowData(c: Collector, chain: Option<seq<string>>, detail: nat -> FetchInput, rounds: seq<Round>)
    : (r: (Collector, FetchState))
    ensures r.0 == c.(rowsById := r.0.rowsById, failedItems := r.0.failedItems)
    ensures chain.None? || |c.declarantIds| == 0 ==> r.0 == c && r.1.reports == [] && !r.1.stopped
    ensures Counted(r.1, |c.declarantIds|)
    ensures r.1.completed <= |c.declarantIds| && r.1.reports == Reports(r.1.completed, |c.declarantIds|)
    ensures chain.Some? && !r.1.stopped ==> r.1.pending == {}
    ensures r.1.stopped ==> exists j :: 0 <= j < |rounds| && rounds[j].stopSeen
  {
    var n := |c.declarantIds|;
    if chain.None? || n == 0 then
      (c, Start(c))
    else
      var results := seq(n, i requires 0 <= i < n => FetchSingleRow(chain.value, detail(i)));
      var st := ProcessRounds(Start(c), c.declarantIds, results, rounds);
      (c.(rowsById := st.rowsById, failedItems := st.failedItems), st)
  }

  /** Starting from empty containers with distinct hashable ids, every processed id is
      filed on exactly one side, with its section or with its reason; ids the loop
      abandoned on a stop are on neither side; without a stop every id is processed. */
  lemma RowDataPartition(c: Collector, chain: seq<string>, detail: nat -> FetchInput, rounds: seq<Round>)
    requires c.rowsById == [] && c.failedItems == [] && DistinctIds(c.declarantIds)
    ensures var r := GetRowData(c, Some(chain), detail, rounds);
            var ids := c.declarantIds;
            && (forall i :: 0 <= i < |ids| && i !in r.1.pending ==>
                  (Lookup(r.0.rowsById, ToKey(ids[i]).value).Some? <==> !Reported(r.0.failedItems, ids[i])))
            && (forall i :: 0 <= i < |ids| && i !in r.1.pending ==>
                  var res := FetchSingleRow(chain, detail(i));
                  if res.section != Null then Lookup(r.0.rowsById, ToKey(ids[i]).value) == Some(res.section)
                  else FailedItem(ids[i], res.reason) in r.0.failedItems)
            && (forall i :: 0 <= i < |ids| && i in r.1.pending ==>
                  Lookup(r.0.rowsById, ToKey(ids[i]).value).None? && !Reported(r.0.failedItems, ids[i]))
            && (!r.1.stopped ==> r.1.pending == {})
            && |r.0.rowsById| + |r.0.failedItems| == r.1.completed
  {
    var ids := c.declarantIds;
    var n := |ids|;
    if n > 0 {
      var results := seq(n, i requires 0 <= i < n => FetchSingleRow(chain, detail(i)));
      var st0 := Start(c);
      forall i | 0 <= i < n ensures Filed(st0, ids, results, i) {
        assert i in st0.pending;
      }
      assert Partitioned(st0, ids, results);
      var st := ProcessRounds(st0, ids, results, rounds);
      assert Partitioned(st, ids, results);
      var r := GetRowData(c, Some(chain), detail, rounds);
      assert r.1 == st && r.0.rowsById == st.rowsById && r.0.failedItems == st.failedItems;
      forall i | 0 <= i < n && i !in st.pending
        ensures Lookup(st.rowsById, ToKey(ids[i]).value).Some? <==> !Reported(st.failedItems, ids[i])
        ensures var res := FetchSingleRow(chain, detail(i));
                if res.section != Null then Lookup(st.rowsById, ToKey(ids[i]).value) == Some(res.section)
                else FailedItem(ids[i], res.reason) in st.failedItems
      {
        assert Filed(st, ids, results, i);
        assert results[i] == FetchSingleRow(chain, detail(i));
        if results[i].section == Null {
          assert Reported(st.failedItems, ids[i]) by {
            assert FailedItem(ids[i], results[i].reason) in st.failedItems;
          }
        }
      }
      forall i | 0 <= i < n && i in st.pending
        ensures Lookup(st.rowsById, ToKey(ids[i]).value).None? && !Reported(st.failedItems, ids[i])
      {
        assert Filed(st, ids, results, i);
      }
    }
  }
}
