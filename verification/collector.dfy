/**
 * The collector object of core/cpc_data_collector.py: its construction (page-limit
 * clamp) and the listing step `get_declarations` (filter payload, retry narrowing,
 * id projection).
 */
module Collector {
  import opened Wrappers
  import opened Values

  /** Largest page the listing endpoint is asked for. */
  const MaxPageSize: int := 100
  /** Size of the per-job worker pool that fetches detail documents. */
  const MaxWorkers: nat := 3
  /** Timeout, in seconds, of every outbound request. */
  const RequestTimeout: nat := 30

  /** What one outbound request produced: a decoded JSON body, a body that is not
      JSON, or the message of the request-level failure (HTTP status, connection,
      timeout, after the HTTP adapter's own retries). */
  datatype Response = Body(json: Value) | BadJson | Failure(message: string)

  /** An entry of `failed_items`; a reason of `None` is Python's `None`. */
  datatype FailedItem = FailedItem(id: Value, reason: Option<string>)

  /** The collector's fields. `rowsById` and `headersById` are the insertion-ordered
      dicts `rows_by_id` and `headers_by_id`. */
  datatype Collector = Collector(
    year: int,
    declarantType: Option<int>,
    tType: Option<int>,
    instGroup: Option<int>,
    institution: Option<int>,
    offset: int,
    limit: int,
    retryIds: Value,
    declarationList: seq<Value>,
    declarantIds: seq<Value>,
    rowsById: seq<(Key, Value)>,
    headersById: seq<(Key, seq<Value>)>,
    finalData: seq<Value>,
    failedItems: seq<FailedItem>)

  /** Truthiness of an optional integer argument (`None` and `0` are falsy). */
  predicate Given(x: Option<int>) {
    x.Some? && x.value != 0
  }

  /** The page size stored by the constructor. */
  function ClampLimit(limit: Option<int>): (r: int)
    ensures r <= MaxPageSize
    ensures Given(limit) && limit.value <= MaxPageSize ==> r == limit.value
    ensures !Given(limit) ==> r == MaxPageSize
    ensures Given(limit) && limit.value > MaxPageSize ==> r == MaxPageSize
  {
    if Given(limit) then (if limit.value < MaxPageSize then limit.value else MaxPageSize)
    else MaxPageSize
  }

  /** `CpcDataCollector(...)`: arguments stored, limit clamped, all result containers empty. */
  function NewCollector(year: int, declarantType: Option<int>, tType: Option<int>,
                        instGroup: Option<int>, institution: Option<int>,
                        offset: int, limit: Option<int>, retryIds: Value): (c: Collector)
    ensures c.limit == ClampLimit(limit) && c.limit <= MaxPageSize
    ensures c.year == year && c.offset == offset
    ensures c.declarantType == declarantType && c.tType == tType
    ensures c.instGroup == instGroup && c.institution == institution
    ensures c.retryIds == (if Truthy(retryIds) then retryIds else List([]))
    ensures c.declarationList == [] && c.declarantIds == [] && c.rowsById == []
    ensures c.headersById == [] && c.finalData == [] && c.failedItems == []
  {
    Collector(year, declarantType, tType, instGroup, institution, offset, ClampLimit(limit),
              if Truthy(retryIds) then retryIds else List([]),
              [], [], [], [], [], [])
  }

  /** JSON rendering of an optional integer argument. */
  function OptValue(x: Option<int>): Value {
    match x
    case Some(n) => Int(n)
    case None => Null
  }

  /** `api_filter[key] = x` when `x` is truthy. */
  function AddIfGiven(f: seq<(Key, Value)>, key: string, x: Option<int>): (r: seq<(Key, Value)>)
    ensures DistinctKeys(f) ==> DistinctKeys(r)
    ensures !Given(x) ==> r == f
    ensures Given(x) ==> Lookup(r, KStr(key)) == Some(Int(x.value))
    ensures Given(x) ==> forall k :: k != KStr(key) ==> Lookup(r, k) == Lookup(f, k)
  {
    if Given(x) then Store(f, KStr(key), OptValue(x)) else f
  }

  /** The listing filter: `year` always, each optional criterion only when it is given. */
  function ApiFilter(c: Collector): (f: seq<(Key, Value)>)
    ensures DistinctKeys(f)
    ensures Lookup(f, KStr("year")) == Some(Int(c.year))
  {
    var f0 := Store([], KStr("year"), Int(c.year));
    var f1 := AddIfGiven(f0, "declarantType", c.declarantType);
    var f2 := AddIfGiven(f1, "type", c.tType);
    var f3 := AddIfGiven(f2, "institutionGroup", c.instGroup);
    AddIfGiven(f3, "institution", c.institution)
  }

  /** The filter entry for an optional criterion: present, with its value, exactly when given. */
  predicate Carries(f: seq<(Key, Value)>, key: string, x: Option<int>) {
    Lookup(f, KStr(key)) == (if Given(x) then Some(Int(x.value)) else None)
  }

  /** Adding one criterion leaves the entry of any other key as it was. */
  lemma AddIfGivenKeeps(f: seq<(Key, Value)>, key: string, x: Option<int>, other: Key)
    requires KStr(key) != other
    ensures Lookup(AddIfGiven(f, key, x), other) == Lookup(f, other)
  {
  }

  /** The four optional criteria appear in the filter exactly when they are given;
      no other key than `year` and those four appears. */
  lemma ApiFilterCriteria(c: Collector)
    ensures Carries(ApiFilter(c), "declarantType", c.declarantType)
    ensures Carries(ApiFilter(c), "type", c.tType)
    ensures Carries(ApiFilter(c), "institutionGroup", c.instGroup)
    ensures Carries(ApiFilter(c), "institution", c.institution)
    ensures forall k :: k !in {KStr("year"), KStr("declarantType"), KStr("type"), KStr("institutionGroup"), KStr("institution")}
                        ==> Lookup(ApiFilter(c), k).None?
  {
    var f0 := Store([], KStr("year"), Int(c.year));
    var f1 := AddIfGiven(f0, "declarantType", c.declarantType);
    var f2 := AddIfGiven(f1, "type", c.tType);
    var f3 := AddIfGiven(f2, "institutionGroup", c.instGroup);
    var f4 := AddIfGiven(f3, "institution", c.institution);
    assert f4 == ApiFilter(c);
    forall k | k != KStr("year")
      ensures Lookup(f0, k).None?
    {
    }
    AddIfGivenKeeps(f3, "institution", c.institution, KStr("declarantType"));
    AddIfGivenKeeps(f2, "institutionGroup", c.instGroup, KStr("declarantType"));
    AddIfGivenKeeps(f1, "type", c.tType, KStr("declarantType"));
    assert Carries(f1, "declarantType", c.declarantType);
    AddIfGivenKeeps(f3, "institution", c.institution, KStr("type"));
    AddIfGivenKeeps(f2, "institutionGroup", c.instGroup, KStr("type"));
    AddIfGivenKeeps(f0, "declarantType", c.declarantType, KStr("type"));
    assert Carries(f2, "type", c.tType);
    AddIfGivenKeeps(f3, "institution", c.institution, KStr("institutionGroup"));
    AddIfGivenKeeps(f1, "type", c.tType, KStr("institutionGroup"));
    AddIfGivenKeeps(f0, "declarantType", c.declarantType, KStr("institutionGroup"));
    assert Carries(f3, "institutionGroup", c.instGroup);
    AddIfGivenKeeps(f2, "institutionGroup", c.instGroup, KStr("institution"));
    AddIfGivenKeeps(f1, "type", c.tType, KStr("institution"));
    AddIfGivenKeeps(f0, "declarantType", c.declarantType, KStr("institution"));
    forall k | k !in {KStr("year"), KStr("declarantType"), KStr("type"), KStr("institutionGroup"), KStr("institution")}
      ensures Lookup(f4, k).None?
    {
      AddIfGivenKeeps(f3, "institution", c.institution, k);
      AddIfGivenKeeps(f2, "institutionGroup", c.instGroup, k);
      AddIfGivenKeeps(f1, "type", c.tType, k);
      AddIfGivenKeeps(f0, "declarantType", c.declarantType, k);
    }
  }

  /** The body of the listing POST: the filter plus the paging window. */
  function ListingPayload(c: Collector): (p: Value)
    ensures p.Obj? && Lookup(p.fields, KStr("filter")) == Some(Obj(ApiFilter(c)))
    ensures Lookup(p.fields, KStr("paging")) == Some(Obj([(KStr("offset"), Int(c.offset)), (KStr("limit"), Int(c.limit))]))
  {
    var paging := Store(Store([], KStr("offset"), Int(c.offset)), KStr("limit"), Int(c.limit));
    assert paging == [(KStr("offset"), Int(c.offset)), (KStr("limit"), Int(c.limit))];
    Obj(Store(Store([], KStr("filter"), Obj(ApiFilter(c))), KStr("paging"), Obj(paging)))
  }

  /** `set(map(int, xs))`. */
  function IntSet(xs: seq<Value>): (r: Result<set<int>, Exc>)
    ensures r.Ok? <==> forall i :: 0 <= i < |xs| ==> PyInt(xs[i]).Ok?
    ensures r.Ok? ==> forall n :: n in r.value <==> exists i :: 0 <= i < |xs| && PyInt(xs[i]) == Ok(n)
  {
    if |xs| == 0 then Ok({})
    else
      match PyInt(xs[0])
      case Err(e) => Err(e)
      case Ok(n) =>
        match IntSet(xs[1..])
        case Err(e) => Err(e)
        case Ok(rest) =>
          assert forall m :: (exists i :: 0 <= i < |xs[1..]| && PyInt(xs[1..][i]) == Ok(m))
                               ==> (exists i :: 0 <= i < |xs| && PyInt(xs[i]) == Ok(m)) by {
            forall m | exists i :: 0 <= i < |xs[1..]| && PyInt(xs[1..][i]) == Ok(m)
              ensures exists i :: 0 <= i < |xs| && PyInt(xs[i]) == Ok(m)
            {
              var i :| 0 <= i < |xs[1..]| && PyInt(xs[1..][i]) == Ok(m);
              assert PyInt(xs[i + 1]) == Ok(m);
            }
          }
          Ok({n} + rest)
  }

  /** `d["id"] in retry_set`: the id is looked up and hashed, then compared as an int. */
  function IdIn(d: Value, s: set<int>): (r: Result<bool, Exc>)
    ensures r.Ok? <==> Subscript(d, Str("id")).Ok? && ToKey(Subscript(d, Str("id")).value).Ok?
    ensures r == Ok(true) ==> d.Obj?
  {
    var id :- Subscript(d, Str("id"));
    var k :- ToKey(id);
    Ok(k.KInt? && k.n in s)
  }

  /** `b` keeps some elements of `a`, in their order (not necessarily contiguous). */
  ghost predicate SubsequenceOf<T>(a: seq<T>, b: seq<T>) {
    if |a| == 0 then true
    else if |b| == 0 then false
    else (a[0] == b[0] && SubsequenceOf(a[1..], b[1..])) || SubsequenceOf(a, b[1..])
  }

  /** The retry narrowing `[d for d in data if d["id"] in retry_set]`. */
  function Narrow(items: seq<Value>, s: set<int>): (r: Result<seq<Value>, Exc>)
    ensures r.Ok? <==> forall i :: 0 <= i < |items| ==> IdIn(items[i], s).Ok?
    ensures r.Ok? ==> SubsequenceOf(r.value, items)
    ensures r.Ok? ==> forall x :: x in r.value <==> x in items && IdIn(x, s) == Ok(true)
    ensures r.Ok? ==> forall x :: multiset(r.value)[x] == (if IdIn(x, s) == Ok(true) then multiset(items)[x] else 0)
  {
    if |items| == 0 then Ok([])
    else
      match IdIn(items[0], s)
      case Err(e) => Err(e)
      case Ok(keep) =>
        match Narrow(items[1..], s)
        case Err(e) => Err(e)
        case Ok(rest) =>
          NarrowCons(items, rest, keep, s);
          Ok(if keep then [items[0]] + rest else rest)
  }

  /** One step of the narrowing: the first entry is kept or dropped in front of what
      the narrowing of the remaining entries keeps. */
  lemma NarrowCons(items: seq<Value>, rest: seq<Value>, keep: bool, s: set<int>)
    requires |items| > 0 && IdIn(items[0], s) == Ok(keep)
    requires SubsequenceOf(rest, items[1..])
    requires forall x :: x in rest <==> x in items[1..] && IdIn(x, s) == Ok(true)
    requires forall x :: multiset(rest)[x] == (if IdIn(x, s) == Ok(true) then multiset(items[1..])[x] else 0)
    ensures var r := if keep then [items[0]] + rest else rest;
            && SubsequenceOf(r, items)
            && (forall x :: x in r <==> x in items && IdIn(x, s) == Ok(true))
            && (forall x :: multiset(r)[x] == (if IdIn(x, s) == Ok(true) then multiset(items)[x] else 0))
  {
    assert items == [items[0]] + items[1..];
    assert multiset(items) == multiset{items[0]} + multiset(items[1..]);
    if keep {
      assert ([items[0]] + rest)[1..] == rest;
      assert multiset([items[0]] + rest) == multiset{items[0]} + multiset(rest);
    }
  }

  /** The entries the listing step keeps from a decoded listing body: `data`
      (default `[]`), narrowed to the retry set when one is given. */
  function Listed(body: Value, retryIds: Value): (r: Result<seq<Value>, Exc>)
    ensures body.Obj? && !HasKey(body, "data") && !Truthy(retryIds) ==> r == Ok([])
    ensures !Truthy(retryIds) && body.Obj? && HasKey(body, "data") ==> r == Iter(Lookup(body.fields, KStr("data")).value)
    ensures !body.Obj? ==> r.Err?
  {
    var data :- Get(body, "data", List([]));
    if Truthy(retryIds) then
      var ids :- Iter(retryIds);
      var keep :- IntSet(ids);
      var entries :- Iter(data);
      Narrow(entries, keep)
    else
      Iter(data)
  }

  /** `get_declarations`: the collector after the call, and the pair it returns. */
  function GetDeclarations(c: Collector, stopSet: bool, response: Response): (r: (Collector, seq<Value>, seq<Value>))
    ensures stopSet || !response.Body? ==> r == (c, [], [])
    ensures r.0 == c.(declarationList := r.0.declarationList, declarantIds := r.0.declarantIds)
    ensures !stopSet && response.Body? && Listed(response.json, c.retryIds).Err? ==> r == (c, [], [])
    ensures !stopSet && response.Body? && Listed(response.json, c.retryIds).Ok? ==>
              r.0.declarationList == c.declarationList + Listed(response.json, c.retryIds).value
    ensures !stopSet && response.Body? && Listed(response.json, c.retryIds).Ok? ==>
              var entries := Listed(response.json, c.retryIds).value;
              && (Column(entries, "id").Ok? ==>
                    && r.0.declarantIds == c.declarantIds + Column(entries, "id").value
                    && r.1 == r.0.declarationList && r.2 == r.0.declarantIds)
              && (Column(entries, "id").Err? ==> r.0.declarantIds == c.declarantIds && r.1 == [] && r.2 == [])
  {
    if stopSet then (c, [], [])
    else
      match response
      case Body(b) =>
        (match Listed(b, c.retryIds)
         case Err(_) => (c, [], [])
         case Ok(entries) =>
           var extended := c.(declarationList := c.declarationList + entries);
           match Column(entries, "id")
           case Err(_) => (extended, [], [])
           case Ok(ids) =>
             var done := extended.(declarantIds := c.declarantIds + ids);
             (done, done.declarationList, done.declarantIds))
      case _ => (c, [], [])
  }

  /** A listing entry with an integer id. */
  predicate HasIntId(d: Value) {
    d.Obj? && Lookup(d.fields, KStr("id")).Some? && Lookup(d.fields, KStr("id")).value.Int?
  }

  /** The integer id of such an entry. */
  function IntId(d: Value): int
    requires HasIntId(d)
  {
    Lookup(d.fields, KStr("id")).value.n
  }

  /** Without retry ids, a well-formed listing is kept whole and the ids are its id column. */
  lemma ListingKeptWhole(c: Collector, items: seq<Value>)
    requires c.declarationList == [] && c.declarantIds == []
    requires !Truthy(c.retryIds)
    requires forall i :: 0 <= i < |items| ==> HasIntId(items[i])
    ensures var r := GetDeclarations(c, false, Body(Obj([(KStr("data"), List(items))])));
            && r.0.declarationList == items
            && |r.0.declarantIds| == |items|
            && (forall i :: 0 <= i < |items| ==> r.0.declarantIds[i] == Int(IntId(items[i])))
            && r.1 == items && r.2 == r.0.declarantIds
  {
    var b := Obj([(KStr("data"), List(items))]);
    assert HasKey(b, "data");
    assert Listed(b, c.retryIds) == Ok(items);
    assert Column(items, "id").Ok?;
  }

  /** For an entry with an integer id, the retry test is plain set membership. */
  lemma IdInIntId(d: Value, s: set<int>)
    requires HasIntId(d)
    ensures IdIn(d, s) == Ok(IntId(d) in s)
  {
    assert Subscript(d, Str("id")) == Ok(Int(IntId(d)));
  }

  /** With retry ids, a well-formed listing is narrowed to exactly the entries whose id
      is in the retry set, in listing order, and the ids are their id column. */
  lemma ListingNarrowedToRetrySet(c: Collector, items: seq<Value>, retry: seq<int>)
    requires c.declarationList == [] && c.declarantIds == []
    requires |retry| > 0 && c.retryIds == List(seq(|retry|, i requires 0 <= i < |retry| => Int(retry[i])))
    requires forall i :: 0 <= i < |items| ==> HasIntId(items[i])
    ensures var r := GetDeclarations(c, false, Body(Obj([(KStr("data"), List(items))])));
            && SubsequenceOf(r.0.declarationList, items)
            && (forall i :: 0 <= i < |r.0.declarationList| ==> HasIntId(r.0.declarationList[i]))
            && (forall d :: d in r.0.declarationList <==> d in items && IntId(d) in retry)
            && (forall d :: multiset(r.0.declarationList)[d] == (if d in items && IntId(d) in retry then multiset(items)[d] else 0))
            && |r.0.declarantIds| == |r.0.declarationList|
            && (forall i :: 0 <= i < |r.0.declarantIds| ==> r.0.declarantIds[i] == Int(IntId(r.0.declarationList[i])))
  {
    var b := Obj([(KStr("data"), List(items))]);
    ListingRetryNarrowing(c.retryIds, items, retry);
    var s := IntSet(c.retryIds.items).value;
    NarrowIntIds(items, s);
    var kept := Narrow(items, s).value;
    IntIdColumn(kept);
    assert Listed(b, c.retryIds) == Ok(kept);
    var r := GetDeclarations(c, false, Body(b));
    assert r.0.declarationList == kept;
    assert r.0.declarantIds == Column(kept, "id").value;
    assert forall d :: d in kept ==> d in items;
    assert forall d :: d in items ==> (IntId(d) in s <==> IntId(d) in retry);
  }

  /** With retry ids given as ints, the listing step narrows the listing to the set of
      those ints. */
  lemma ListingRetryNarrowing(retryIds: Value, items: seq<Value>, retry: seq<int>)
    requires |retry| > 0 && retryIds == List(seq(|retry|, i requires 0 <= i < |retry| => Int(retry[i])))
    ensures IntSet(retryIds.items).Ok?
    ensures forall n :: n in IntSet(retryIds.items).value <==> n in retry
    ensures Listed(Obj([(KStr("data"), List(items))]), retryIds) == Narrow(items, IntSet(retryIds.items).value)
  {
    var b := Obj([(KStr("data"), List(items))]);
    assert Truthy(retryIds);
    assert Iter(retryIds) == Ok(retryIds.items);
    RetryIdSet(retry);
    assert Get(b, "data", List([])) == Ok(List(items));
  }

  /** The retry ids given as ints form exactly the set of those ints. */
  lemma RetryIdSet(retry: seq<int>)
    ensures var ids := seq(|retry|, i requires 0 <= i < |retry| => Int(retry[i]));
            IntSet(ids).Ok? && forall n :: n in IntSet(ids).value <==> n in retry
  {
    var ids := seq(|retry|, i requires 0 <= i < |retry| => Int(retry[i]));
    assert forall i :: 0 <= i < |ids| ==> PyInt(ids[i]) == Ok(retry[i]);
    var s := IntSet(ids).value;
    forall n ensures n in s <==> n in retry {
      if n in retry {
        var i :| 0 <= i < |retry| && retry[i] == n;
        assert PyInt(ids[i]) == Ok(n);
      }
    }
  }

  /** Narrowing entries that all have int ids keeps exactly those whose id is in the
      set, and their id column is their int ids. */
  lemma NarrowIntIds(items: seq<Value>, s: set<int>)
    requires forall i :: 0 <= i < |items| ==> HasIntId(items[i])
    ensures Narrow(items, s).Ok?
    ensures var kept := Narrow(items, s).value;
            && (forall i :: 0 <= i < |kept| ==> HasIntId(kept[i]))
            && (forall d :: d in kept <==> d in items && IntId(d) in s)
            && (forall d :: multiset(kept)[d] == (if d in items && IntId(d) in s then multiset(items)[d] else 0))
  {
    assert forall d :: d in items ==> IdIn(d, s) == Ok(IntId(d) in s) by {
      forall d | d in items ensures IdIn(d, s) == Ok(IntId(d) in s) {
        IdInIntId(d, s);
      }
    }
    var kept := Narrow(items, s).value;
    assert forall i :: 0 <= i < |kept| ==> kept[i] in items;
  }

  /** The id column of entries with integer ids holds those ids, in order. */
  lemma IntIdColumn(items: seq<Value>)
    requires forall i :: 0 <= i < |items| ==> HasIntId(items[i])
    ensures Column(items, "id").Ok? && |Column(items, "id").value| == |items|
    ensures forall i :: 0 <= i < |items| ==> Column(items, "id").value[i] == Int(IntId(items[i]))
  {
    forall i | 0 <= i < |items| ensures Subscript(items[i], Str("id")) == Ok(Int(IntId(items[i]))) {
    }
  }

  /** The narrowing of a listing whose ids are 1, 2, 3 to the retry set {3}. */
  lemma RetryNarrowingExample(c: Collector)
    requires c.declarationList == [] && c.declarantIds == []
    requires c.retryIds == List([Int(3)])
    ensures var d1 := Obj([(KStr("id"), Int(1))]);
            var d2 := Obj([(KStr("id"), Int(2))]);
            var d3 := Obj([(KStr("id"), Int(3))]);
            var r := GetDeclarations(c, false, Body(Obj([(KStr("data"), List([d1, d2, d3]))])));
            r.0.declarationList == [d3] && r.0.declarantIds == [Int(3)]
  {
    var d1 := Obj([(KStr("id"), Int(1))]);
    var d2 := Obj([(KStr("id"), Int(2))]);
    var d3 := Obj([(KStr("id"), Int(3))]);
    assert [Int(3)][1..] == [];
    assert IntSet([]) == Ok({});
    assert PyInt(Int(3)) == Ok(3);
    assert {3} + {} == {3};
    assert IntSet([Int(3)]) == Ok({3});
    assert IdIn(d1, {3}) == Ok(false);
    assert IdIn(d2, {3}) == Ok(false);
    assert IdIn(d3, {3}) == Ok(true);
    assert [d3][1..] == [];
    assert Narrow([], {3}) == Ok([]);
    assert [d3] + [] == [d3];
    assert Narrow([d3], {3}) == Ok([d3]);
    assert [d2, d3][1..] == [d3];
    assert Narrow([d2, d3], {3}) == Ok([d3]);
    assert [d1, d2, d3][1..] == [d2, d3];
    assert Narrow([d1, d2, d3], {3}) == Ok([d3]);
  }

  /** An entry without an id still lands in `declaration_list` although the call
      reports an empty result: the list is extended before the id column is taken. */
  lemma ListingEntryWithoutIdIsKept(c: Collector)
    requires c.declarationList == [] && c.declarantIds == []
    requires !Truthy(c.retryIds)
    ensures var d := Obj([(KStr("name"), Str("x"))]);
            var r := GetDeclarations(c, false, Body(Obj([(KStr("data"), List([d]))])));
            r.0.declarationList == [d] && r.0.declarantIds == [] && r.1 == [] && r.2 == []
  {
    var d := Obj([(KStr("name"), Str("x"))]);
    assert Subscript(d, Str("id")).Err?;
  }
}
