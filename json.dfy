/**
  JSON-like values as they are stored in configurations, and Python's `==`
  on them.

  Python compares `True == 1` and `False == 0` as equal, lists element by
  element and dicts key by key; every other pair of distinct kinds is unequal.
  `PyEq` follows those rules, so it is coarser than Dafny's structural `==`.
*/
module Json {

  datatype Json =
    | JNull
    | JBool(b: bool)
    | JNum(n: int)
    | JStr(s: string)
    | JArr(items: seq<Json>)
    | JObj(fields: map<string, Json>)

  /** A configuration value: a dict from field name to JSON value. */
  type ConfigValue = map<string, Json>

  /** Python's `dict.get(key)`: a missing key reads as `None`. */
  function Get(m: ConfigValue, k: string): (v: Json)
    ensures k !in m ==> v == JNull
    ensures k in m ==> v == m[k]
  {
    if k in m then m[k] else JNull
  }

  /** Booleans take part in numeric comparison, as Python's bool is an int. */
  predicate IsNumeric(x: Json) {
    x.JBool? || x.JNum?
  }

  function NumValue(x: Json): int
    requires IsNumeric(x)
  {
    if x.JBool? then (if x.b then 1 else 0) else x.n
  }

  /** Python's `x == y` for JSON values. */
  predicate PyEq(x: Json, y: Json)
    decreases x
  {
    match (x, y)
    case (JNull, JNull) => true
    case (JStr(a), JStr(b)) => a == b
    case (JArr(a), JArr(b)) =>
      |a| == |b| && forall i :: 0 <= i < |a| ==> PyEq(a[i], b[i])
    case (JObj(a), JObj(b)) =>
      a.Keys == b.Keys && forall k :: k in a ==> PyEq(a[k], b[k])
    case _ =>
      IsNumeric(x) && IsNumeric(y) && NumValue(x) == NumValue(y)
  }

  lemma {:induction false} PyEqReflexive(x: Json)
    ensures PyEq(x, x)
    decreases x
  {
    match x
    case JArr(a) =>
      forall i | 0 <= i < |a| ensures PyEq(a[i], a[i]) {
        PyEqReflexive(a[i]);
      }
    case JObj(a) =>
      forall k | k in a ensures PyEq(a[k], a[k]) {
        PyEqReflexive(a[k]);
      }
    case _ =>
  }

  lemma {:induction false} PyEqSymmetric(x: Json, y: Json)
    ensures PyEq(x, y) == PyEq(y, x)
    decreases x
  {
    match (x, y)
    case (JArr(a), JArr(b)) =>
      if |a| == |b| {
        forall i | 0 <= i < |a| ensures PyEq(a[i], b[i]) == PyEq(b[i], a[i]) {
          PyEqSymmetric(a[i], b[i]);
        }
      }
    case (JObj(a), JObj(b)) =>
      if a.Keys == b.Keys {
        forall k | k in a ensures PyEq(a[k], b[k]) == PyEq(b[k], a[k]) {
          PyEqSymmetric(a[k], b[k]);
        }
      }
    case _ =>
  }

  /** The converse fails: Python's `True == 1` is true. */
  lemma BoolEqualsOne()
    ensures JBool(true) != JNum(1)
    ensures PyEq(JBool(true), JNum(1))
    ensures PyEq(JBool(false), JNum(0))
    ensures !PyEq(JBool(true), JNum(2))
  {
  }
}
