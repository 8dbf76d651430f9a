/**
 * JSON values as the two scripts see them after `json.loads` or `yaml.safe_load`,
 * with the Python semantics the scripts rely on: truthiness, `dict.get`,
 * iteration, and the exceptions raised when a value has the wrong shape.
 */
module JsonValues {
  import opened Wrappers

  /** A decoded value. Numbers are exact; objects keep their pairs in order. */
  datatype Json =
    | JNull
    | JBool(b: bool)
    | JNum(n: real)
    | JStr(s: string)
    | JArr(items: seq<Json>)
    | JObj(fields: Dict)

  /**
   * A Python dict as a sequence of pairs. As with the dict built by `json.loads`,
   * a key that occurs twice keeps its first position and its last value.
   */
  type Dict = seq<(string, Json)>

  /** `d[key]` when present: the value of the last pair with that key. */
  function Lookup(d: Dict, key: string): (r: Option<Json>)
    decreases |d|
  {
    if |d| == 0 then None
    else if d[|d| - 1].0 == key then Some(d[|d| - 1].1)
    else
      var r := Lookup(d[..|d| - 1], key);
      assert forall i :: 0 <= i < |d| - 1 ==> d[..|d| - 1][i] == d[i];
      r
  }

  /** `key in d` */
  predicate Has(d: Dict, key: string) {
    Lookup(d, key).Some?
  }

  /** A key is present exactly when some pair has it. */
  lemma {:induction false} HasIndex(d: Dict, key: string)
    ensures Has(d, key) <==> exists i :: 0 <= i < |d| && d[i].0 == key
    decreases |d|
  {
    if |d| > 0 && d[|d| - 1].0 != key {
      var front := d[..|d| - 1];
      assert forall i :: 0 <= i < |front| ==> front[i] == d[i];
      HasIndex(front, key);
    }
  }

  /** The value found is that of the last pair with the key. */
  lemma {:induction false} LookupLast(d: Dict, key: string)
    requires Has(d, key)
    ensures exists i :: 0 <= i < |d| && d[i] == (key, Lookup(d, key).value)
                        && forall j :: i < j < |d| ==> d[j].0 != key
    decreases |d|
  {
    if d[|d| - 1].0 != key {
      var front := d[..|d| - 1];
      assert forall i :: 0 <= i < |front| ==> front[i] == d[i];
      LookupLast(front, key);
    }
  }

  /** The pair at `i` gives the value when no later pair has the key. */
  lemma {:induction false} LookupAt(d: Dict, key: string, i: nat)
    requires i < |d| && d[i].0 == key
    requires forall j :: i < j < |d| ==> d[j].0 != key
    ensures Lookup(d, key) == Some(d[i].1)
    decreases |d|
  {
    if i < |d| - 1 {
      var front := d[..|d| - 1];
      assert front[i] == d[i];
      LookupAt(front, key, i);
    }
  }

  /** `d.get(key, default)` */
  function Get(d: Dict, key: string, default: Json): Json {
    Lookup(d, key).GetOr(default)
  }

  /** No element occurs twice. */
  predicate Distinct<T(==)>(s: seq<T>) {
    forall i, j :: 0 <= i < j < |s| ==> s[i] != s[j]
  }

  /** The keys of a dict in iteration order: each key once, where it first occurs. */
  function Keys(d: Dict): (ks: seq<string>)
    ensures Distinct(ks)
    ensures forall k :: k in ks <==> Has(d, k)
  {
    if |d| == 0 then []
    else
      var front := d[..|d| - 1];
      var ks := Keys(front);
      if d[|d| - 1].0 in ks then ks else ks + [d[|d| - 1].0]
  }

  /** Python truthiness (`if value:`). A dict is truthy when it has a key. */
  predicate Truthy(j: Json) {
    match j
    case JNull => false
    case JBool(b) => b
    case JNum(n) => n != 0.0
    case JStr(s) => |s| > 0
    case JArr(a) => |a| > 0
    case JObj(f) => |f| > 0
  }

  /** The exceptions a script raises when a value has the wrong shape. */
  datatype FaultKind = AttributeError | TypeError | ValueError

  /** An uncaught exception, with the value that caused it. */
  datatype Fault = Fault(kind: FaultKind, culprit: Json)

  /**
   * What `for x in value:` visits: the items of a list, the one-character
   * strings of a string, the keys of a dict. Other values raise `TypeError`.
   */
  function Iterate(j: Json): (r: Result<seq<Json>, Fault>)
    ensures r.Err? <==> !(j.JArr? || j.JStr? || j.JObj?)
    ensures r.Err? ==> r.error == Fault(TypeError, j)
    ensures j.JArr? ==> r == Ok(j.items)
    ensures j.JStr? ==> r.Ok? && |r.value| == |j.s|
                        && forall i :: 0 <= i < |j.s| ==> r.value[i] == JStr([j.s[i]])
    ensures j.JObj? ==> r.Ok? && |r.value| == |Keys(j.fields)|
  {
    match j
    case JArr(a) => Ok(a)
    case JStr(s) => Ok(seq(|s|, i requires 0 <= i < |s| => JStr([s[i]])))
    case JObj(f) =>
      var ks := Keys(f);
      Ok(seq(|ks|, i requires 0 <= i < |ks| => JStr(ks[i])))
    case _ => Err(Fault(TypeError, j))
  }

  /**
   * The value used for hashing and `==` at the top level: Python treats
   * `True == 1` and `False == 0`.
   */
  function HashKey(j: Json): Json {
    if j.JBool? then JNum(if j.b then 1.0 else 0.0) else j
  }

  /** Values Python can put in a set (lists and dicts are unhashable). */
  predicate Hashable(j: Json) {
    !(j.JArr? || j.JObj?)
  }

  /**
   * The library functions the scripts call and that the model does not
   * define: JSON decoding and encoding, the text of numbers and containers,
   * `float()` / `int()` of a string, and the text of a raised exception.
   */
  datatype Runtime = Runtime(
    loads: string -> Option<Json>,   // json.loads; None when it raises JSONDecodeError
    dumps: Json -> string,           // json.dumps
    repr: Json -> string,            // str() of a number, list or dict
    floatOf: string -> Option<real>, // float(s); None when it raises ValueError
    intOf: string -> Option<int>,    // int(s); None when it raises ValueError
    faultText: Fault -> string)      // str(e) of a caught exception

  /** `str(value)`, as an f-string renders it. */
  function Str(rt: Runtime, j: Json): string {
    match j
    case JStr(s) => s
    case JNull => "None"
    case JBool(b) => if b then "True" else "False"
    case _ => rt.repr(j)
  }

  /** `int(x)` of a number: truncation toward zero. */
  function TruncateTowardZero(x: real): (r: int)
    ensures 0.0 <= x ==> r as real <= x < r as real + 1.0
    ensures x < 0.0 ==> r as real - 1.0 < x <= r as real
  {
    if x >= 0.0 then x.Floor else -((-x).Floor)
  }

  /** `float(value)` */
  function PyFloat(rt: Runtime, j: Json): Result<real, Fault> {
    match j
    case JNum(n) => Ok(n)
    case JBool(b) => Ok(if b then 1.0 else 0.0)
    case JStr(s) =>
      (match rt.floatOf(s)
       case Some(x) => Ok(x)
       case None => Err(Fault(ValueError, j)))
    case _ => Err(Fault(TypeError, j))
  }

  /** `int(value)` */
  function PyInt(rt: Runtime, j: Json): Result<int, Fault> {
    match j
    case JNum(n) => Ok(TruncateTowardZero(n))
    case JBool(b) => Ok(if b then 1 else 0)
    case JStr(s) =>
      (match rt.intOf(s)
       case Some(x) => Ok(x)
       case None => Err(Fault(ValueError, j)))
    case _ => Err(Fault(TypeError, j))
  }

  /** The number a value contributes to `sum()` or `+=`; other values raise TypeError. */
  function Number(j: Json): Result<real, Fault> {
    match j
    case JNum(n) => Ok(n)
    case JBool(b) => Ok(if b then 1.0 else 0.0)
    case _ => Err(Fault(TypeError, j))
  }
}
