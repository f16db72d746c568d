/**
 * Python values as they flow through the collector: JSON documents decoded by the
 * HTTP client, request bodies, and the dicts the collector builds from them.
 *
 * Objects (and every Python dict of the model) are insertion-ordered association
 * lists with Python's dict semantics: a lookup finds the entry with an equal key,
 * an assignment overwrites that entry in place or appends a new one.
 */
module Values {
  import opened Wrappers

  /** The hashable part of a value, as Python compares dict keys and set members:
      `True` and `1` are the same key, lists and dicts cannot be keys at all. */
  datatype Key = KNone | KInt(n: int) | KStr(s: string)

  datatype Value =
    | Null
    | Bool(b: bool)
    | Int(n: int)
    | Str(s: string)
    | List(items: seq<Value>)
    | Obj(fields: seq<(Key, Value)>)

  /** The exceptions the modelled code can raise or catch. */
  datatype Exc = KeyError(key: Key) | IndexError | TypeError | AttributeError | ValueError

  /** Python truthiness (`if v:` / `not v` / `v or w`). */
  predicate Truthy(v: Value) {
    match v
    case Null => false
    case Bool(b) => b
    case Int(n) => n != 0
    case Str(s) => |s| > 0
    case List(items) => |items| > 0
    case Obj(fields) => |fields| > 0
  }

  /** Hashing a value to use it as a dict key or set member. */
  function ToKey(v: Value): (r: Result<Key, Exc>)
    ensures r.Err? <==> v.List? || v.Obj?
    ensures v.Int? ==> r == Ok(KInt(v.n))
    ensures v.Str? ==> r == Ok(KStr(v.s))
  {
    match v
    case Null => Ok(KNone)
    case Bool(b) => Ok(KInt(if b then 1 else 0))
    case Int(n) => Ok(KInt(n))
    case Str(s) => Ok(KStr(s))
    case _ => Err(TypeError)
  }

  /** The value a key denotes (what iterating over a dict yields). */
  function KeyValue(k: Key): (v: Value)
    ensures ToKey(v) == Ok(k)
  {
    match k
    case KNone => Null
    case KInt(n) => Int(n)
    case KStr(s) => Str(s)
  }

  /** Position of the entry with key `k`, if any. */
  function Find<V>(d: seq<(Key, V)>, k: Key): (r: Option<nat>)
    ensures r.Some? ==> r.value < |d| && d[r.value].0 == k
    ensures r.Some? ==> forall j :: 0 <= j < r.value ==> d[j].0 != k
    ensures r.None? <==> forall j :: 0 <= j < |d| ==> d[j].0 != k
  {
    if |d| == 0 then None
    else if d[0].0 == k then Some(0)
    else
      match Find(d[1..], k)
      case None => None
      case Some(i) => Some(i + 1)
  }

  /** `d.get(k)` on a dict: the value stored under `k`, if any. */
  function Lookup<V>(d: seq<(Key, V)>, k: Key): Option<V> {
    match Find(d, k)
    case None => None
    case Some(i) => Some(d[i].1)
  }

  /** No key occurs twice: the shape of every real Python dict. */
  ghost predicate DistinctKeys<V>(d: seq<(Key, V)>) {
    forall i, j :: 0 <= i < j < |d| ==> d[i].0 != d[j].0
  }

  /** `d[k] = v` on a dict: overwrite in place, or append at the end. */
  function Store<V>(d: seq<(Key, V)>, k: Key, v: V): (r: seq<(Key, V)>)
    ensures Lookup(r, k) == Some(v)
    ensures forall k' :: k' != k ==> Lookup(r, k') == Lookup(d, k')
    ensures Lookup(d, k).Some? ==> |r| == |d| && forall j :: 0 <= j < |d| ==> r[j].0 == d[j].0
    ensures Lookup(d, k).None? ==> r == d + [(k, v)]
    ensures DistinctKeys(d) ==> DistinctKeys(r)
  {
    match Find(d, k)
    case Some(i) =>
      var r := d[i := (k, v)];
      assert forall k' :: Find(r, k') == Find(d, k') by {
        forall k' ensures Find(r, k') == Find(d, k') {
          SameKeysSameFind(d, r, k');
        }
      }
      assert Find(r, k) == Some(i);
      r
    case None =>
      var r := d + [(k, v)];
      assert r[|d|].0 == k;
      assert Find(r, k) == Some(|d|);
      assert forall k' :: k' != k ==> Find(r, k') == Find(d, k') by {
        forall k' | k' != k ensures Find(r, k') == Find(d, k') {
          FindAppend(d, (k, v), k');
        }
      }
      r
  }

  /** The first entry with a key is the one a lookup of that key finds. */
  lemma LookupFirst<V>(d: seq<(Key, V)>, j: nat)
    requires j < |d| && forall i :: 0 <= i < j ==> d[i].0 != d[j].0
    ensures Lookup(d, d[j].0) == Some(d[j].1)
  {
    assert Find(d, d[j].0).Some?;
  }

  /** Find depends on the key column only. */
  lemma {:induction false} SameKeysSameFind<V>(d: seq<(Key, V)>, e: seq<(Key, V)>, k: Key)
    requires |d| == |e|
    requires forall j :: 0 <= j < |d| ==> d[j].0 == e[j].0
    ensures Find(d, k) == Find(e, k)
  {
    if |d| > 0 && d[0].0 != k {
      SameKeysSameFind(d[1..], e[1..], k);
    }
  }

  /** Appending an entry with another key does not change where `k` is found. */
  lemma {:induction false} FindAppend<V>(d: seq<(Key, V)>, entry: (Key, V), k: Key)
    requires entry.0 != k
    ensures Find(d + [entry], k) == Find(d, k)
  {
    if |d| > 0 && d[0].0 != k {
      assert (d + [entry])[1..] == d[1..] + [entry];
      FindAppend(d[1..], entry, k);
    }
  }

  /** `k in v` for a dict `v` (false for any other value). */
  predicate HasKey(v: Value, k: string) {
    v.Obj? && Lookup(v.fields, KStr(k)).Some?
  }

  /** Python's index normalisation: a negative index counts from the end. */
  function Index(i: int, n: nat): (r: Option<nat>)
    ensures r.Some? ==> r.value < n
    ensures 0 <= i < n ==> r == Some(i)
    ensures i >= n || i < -(n as int) ==> r.None?
  {
    if 0 <= i < n then Some(i)
    else if -(n as int) <= i < 0 then Some(i + n)
    else None
  }

  /** `v[k]`: dict lookup, list or string indexing, or the error Python raises. */
  function Subscript(v: Value, k: Value): (r: Result<Value, Exc>)
    ensures v.Obj? && ToKey(k).Ok? && Lookup(v.fields, ToKey(k).value).Some?
            ==> r == Ok(Lookup(v.fields, ToKey(k).value).value)
    ensures v.Obj? && ToKey(k).Ok? && Lookup(v.fields, ToKey(k).value).None?
            ==> r == Err(KeyError(ToKey(k).value))
    ensures v.List? && k.Int? && 0 <= k.n < |v.items| ==> r == Ok(v.items[k.n])
    ensures v.List? && k.Int? && k.n >= |v.items| ==> r == Err(IndexError)
    ensures (v.List? || v.Str?) && k.Str? ==> r == Err(TypeError)
    ensures v.Null? || v.Bool? || v.Int? ==> r == Err(TypeError)
    ensures k.Str? && r.Ok? ==> v.Obj?
    ensures r.Err? ==> r.error.KeyError? || r.error == IndexError || r.error == TypeError
  {
    match v
    case Obj(fields) =>
      (match ToKey(k)
       case Err(e) => Err(e)
       case Ok(key) =>
         (match Lookup(fields, key)
          case None => Err(KeyError(key))
          case Some(x) => Ok(x)))
    case List(items) =>
      if k.Int? || k.Bool? then
        var i := if k.Int? then k.n else if k.b then 1 else 0;
        (match Index(i, |items|)
         case None => Err(IndexError)
         case Some(j) => Ok(items[j]))
      else Err(TypeError)
    case Str(s) =>
      if k.Int? || k.Bool? then
        var i := if k.Int? then k.n else if k.b then 1 else 0;
        (match Index(i, |s|)
         case None => Err(IndexError)
         case Some(j) => Ok(Str([s[j]])))
      else Err(TypeError)
    case _ => Err(TypeError)
  }

  /** `v.get(k, default)`: only dicts have `get`. */
  function Get(v: Value, k: string, default: Value): (r: Result<Value, Exc>)
    ensures r.Err? <==> !v.Obj?
    ensures HasKey(v, k) ==> r == Ok(Lookup(v.fields, KStr(k)).value)
    ensures v.Obj? && !HasKey(v, k) ==> r == Ok(default)
  {
    match v
    case Obj(fields) => Ok(Lookup(fields, KStr(k)).GetOr(default))
    case _ => Err(AttributeError)
  }

  /** `[d[key] for d in items]`: one field of every item. */
  function Column(items: seq<Value>, key: string): (r: Result<seq<Value>, Exc>)
    ensures r.Ok? <==> forall i :: 0 <= i < |items| ==> Subscript(items[i], Str(key)).Ok?
    ensures r.Ok? ==> |r.value| == |items|
    ensures r.Ok? ==> forall i :: 0 <= i < |items| ==> Subscript(items[i], Str(key)) == Ok(r.value[i])
  {
    if |items| == 0 then Ok([])
    else
      match Subscript(items[0], Str(key))
      case Err(e) => Err(e)
      case Ok(x) =>
        match Column(items[1..], key)
        case Err(e) => Err(e)
        case Ok(rest) => Ok([x] + rest)
  }

  /** `for x in v`: list items, the one-character strings of a string, or a dict's keys. */
  function Iter(v: Value): (r: Result<seq<Value>, Exc>)
    ensures r.Ok? <==> v.List? || v.Str? || v.Obj?
    ensures v.List? ==> r == Ok(v.items)
    ensures v.Str? ==> |r.value| == |v.s|
    ensures v.Obj? ==> |r.value| == |v.fields|
  {
    match v
    case List(items) => Ok(items)
    case Str(s) => Ok(seq(|s|, i requires 0 <= i < |s| => Str([s[i]])))
    case Obj(fields) => Ok(seq(|fields|, i requires 0 <= i < |fields| => KeyValue(fields[i].0)))
    case _ => Err(TypeError)
  }

  predicate IsDigit(c: char) {
    '0' <= c <= '9'
  }

  /** `str.isdigit()` restricted to ASCII digits: non-empty and all digits. */
  predicate AllDigits(s: string) {
    |s| > 0 && forall i :: 0 <= i < |s| ==> IsDigit(s[i])
  }

  /** The number a run of decimal digits denotes. */
  function DigitsValue(s: string): nat
    requires forall i :: 0 <= i < |s| ==> IsDigit(s[i])
  {
    if |s| == 0 then 0
    else
      assert IsDigit(s[|s| - 1]);
      10 * DigitsValue(s[..|s| - 1]) + (s[|s| - 1] as int - '0' as int)
  }

  /** Decimal text of a natural number, as `str(n)` / an f-string renders it. */
  function NatText(n: nat): (r: string)
    ensures AllDigits(r)
  {
    if n < 10 then [('0' as int + n) as char]
    else NatText(n / 10) + [('0' as int + n % 10) as char]
  }

  /** Decimal text of an integer, with a leading '-' when negative. */
  function IntText(n: int): string {
    if n < 0 then "-" + NatText(-n) else NatText(n)
  }

  /** Digits read back give the number that was written. */
  lemma {:induction false} NatTextRoundTrip(n: nat)
    ensures DigitsValue(NatText(n)) == n
  {
    if n >= 10 {
      var t := NatText(n);
      assert t[..|t| - 1] == NatText(n / 10);
      NatTextRoundTrip(n / 10);
    }
  }

  /** `NatText` is injective: distinct numbers have distinct texts. */
  lemma NatTextInjective(m: nat, n: nat)
    requires m != n
    ensures NatText(m) != NatText(n)
  {
    NatTextRoundTrip(m);
    NatTextRoundTrip(n);
  }

  /** `int(s)` for a string: an optional sign and at least one ASCII digit. */
  function ParseInt(s: string): (r: Option<int>)
    ensures r.Some? <==> AllDigits(s) || (|s| > 0 && (s[0] == '-' || s[0] == '+') && AllDigits(s[1..]))
    ensures AllDigits(s) ==> r == Some(DigitsValue(s))
    ensures |s| > 0 && s[0] == '-' && AllDigits(s[1..]) ==> r == Some(-(DigitsValue(s[1..]) as int))
    ensures |s| > 0 && s[0] == '+' && AllDigits(s[1..]) ==> r == Some(DigitsValue(s[1..]))
  {
    if |s| > 0 && (s[0] == '-' || s[0] == '+') then
      if AllDigits(s[1..]) then
        Some(if s[0] == '-' then -(DigitsValue(s[1..]) as int) else DigitsValue(s[1..]))
      else None
    else if AllDigits(s) then Some(DigitsValue(s))
    else None
  }

  /** The text an integer is written as reads back as that integer, sign included. */
  lemma IntTextRoundTrip(n: int)
    ensures ParseInt(IntText(n)) == Some(n)
  {
    NatTextRoundTrip(if n < 0 then -n else n);
    if n < 0 {
      assert IntText(n)[1..] == NatText(-n);
    }
  }

  /** `int(v)`: ints and booleans convert, strings are parsed, anything else is a TypeError. */
  function PyInt(v: Value): (r: Result<int, Exc>)
    ensures v.Int? ==> r == Ok(v.n)
    ensures v.Bool? ==> r == Ok(if v.b then 1 else 0)
    ensures v.Str? ==> (r.Ok? <==> ParseInt(v.s).Some?)
    ensures v.Str? && r.Ok? ==> r.value == ParseInt(v.s).value
    ensures v.Str? && r.Err? ==> r.error == ValueError
    ensures v.Null? || v.List? || v.Obj? ==> r == Err(TypeError)
  {
    match v
    case Int(n) => Ok(n)
    case Bool(b) => Ok(if b then 1 else 0)
    case Str(s) =>
      (match ParseInt(s)
       case Some(n) => Ok(n)
       case None => Err(ValueError))
    case _ => Err(TypeError)
  }

  /** Text of a key as Python's `repr` shows it inside a KeyError message. */
  function KeyText(k: Key): string {
    match k
    case KNone => "None"
    case KInt(n) => IntText(n)
    case KStr(s) => "'" + s + "'"
  }

  /** `str(e)`: a KeyError shows its key; other kinds get one fixed text each. */
  function Text(e: Exc): string {
    match e
    case KeyError(k) => KeyText(k)
    case IndexError => "index out of range"
    case TypeError => "unsupported operand type"
    case AttributeError => "object has no attribute 'get'"
    case ValueError => "invalid literal for int() with base 10"
  }

  /** The synthetic column name `col_<n>` used for rows without titles. */
  function ColName(n: nat): string {
    "col_" + NatText(n)
  }

  /** Distinct positions give distinct synthetic column names. */
  lemma ColNameInjective(m: nat, n: nat)
    requires m != n
    ensures ColName(m) != ColName(n)
  {
    NatTextInjective(m, n);
    assert ColName(m)[4..] == NatText(m);
    assert ColName(n)[4..] == NatText(n);
  }
}
