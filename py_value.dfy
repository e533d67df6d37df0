/**
 * Python values as the product-matching runtime meets them (decoded JSON and the fields it
 * reads), their truth value, and the few built-ins the runtime leans on: `str` of an id,
 * `' '.join`, `pd.isnull` on a scalar, and slicing.
 */
module PyValues {
  import opened Common

  /**
   * A Python value. Dictionaries are keyed by text, as decoded JSON objects are; `PyNaN` is
   * the float NaN, kept apart from the other floats.
   */
  datatype PyValue =
    | PyNone
    | PyBool(b: bool)
    | PyInt(i: int)
    | PyFloat(f: real)
    | PyNaN
    | PyStr(s: string)
    | PyList(items: seq<PyValue>)
    | PyDict(entries: map<string, PyValue>)

  /** `bool(v)`: None, False, zero, and empty strings, lists and dicts are false; NaN is true. */
  predicate Truthy(v: PyValue)
  {
    match v
    case PyNone => false
    case PyBool(b) => b
    case PyInt(i) => i != 0
    case PyFloat(f) => f != 0.0
    case PyNaN => true
    case PyStr(s) => s != ""
    case PyList(items) => items != []
    case PyDict(entries) => entries != map[]
  }

  /** `d.get(k)`: the value under `k`, or None. */
  function Get(d: map<string, PyValue>, k: string): (r: PyValue)
  {
    if k in d then d[k] else PyNone
  }

  /** `pd.isnull` on a scalar: None and NaN. */
  predicate IsNull(v: PyValue)
  {
    v.PyNone? || v.PyNaN?
  }

  /** A value that can be a dict key or a set member: anything but a list or a dict. */
  predicate Hashable(v: PyValue)
  {
    !v.PyList? && !v.PyDict?
  }

  /**
   * `str(v)`: a string is itself, an integer its decimal digits, booleans and None their
   * names; floats, lists and dicts go through `repr`, which is a parameter of the model.
   */
  function Str(v: PyValue, repr: PyValue -> string): (r: string)
  {
    match v
    case PyStr(s) => s
    case PyInt(i) => IntText(i)
    case PyBool(b) => if b then "True" else "False"
    case PyNone => "None"
    case _ => repr(v)
  }

  /** `sep.join(parts)`. */
  function Join(parts: seq<string>, sep: string): (r: string)
    decreases |parts|
  {
    if parts == [] then ""
    else if |parts| == 1 then parts[0]
    else Join(parts[..|parts| - 1], sep) + sep + parts[|parts| - 1]
  }

  /** A slice bound as Python resolves it: negative counts from the end, then clamped into `[0, n]`. */
  function SliceBound(i: int, n: nat): (r: nat)
    ensures r <= n
  {
    if i < 0 then (if i + n < 0 then 0 else i + n)
    else if i > n then n
    else i
  }

  /** `s[a:b]`. */
  function Slice<T>(s: seq<T>, a: int, b: int): (r: seq<T>)
  {
    var lo := SliceBound(a, |s|);
    var hi := SliceBound(b, |s|);
    if lo < hi then s[lo..hi] else []
  }

  /** A float as `float(text)` reads it: a finite value, an infinity or NaN. */
  datatype Float = Finite(x: real) | PosInf | NegInf | NaN

  /** The dict a comprehension builds from (key, value) pairs: a later pair overwrites an earlier one under the same key. */
  function DictOf(pairs: seq<(PyValue, PyValue)>): (d: map<PyValue, PyValue>)
  {
    var byName := IndexBy(pairs, (p: (PyValue, PyValue)) => p.0);
    map k | k in byName :: byName[k].1
  }

  /** The keys are the pairs' first components. */
  lemma DictOfKeys(pairs: seq<(PyValue, PyValue)>, k: PyValue)
    ensures k in DictOf(pairs) <==> exists j :: 0 <= j < |pairs| && pairs[j].0 == k
  {
    IndexByKeys(pairs, (p: (PyValue, PyValue)) => p.0, k);
  }

  /** Each key is bound to the value of the last pair carrying it. */
  lemma DictOfLast(pairs: seq<(PyValue, PyValue)>, i: int)
    requires 0 <= i < |pairs|
    requires forall j :: i < j < |pairs| ==> pairs[j].0 != pairs[i].0
    ensures pairs[i].0 in DictOf(pairs) && DictOf(pairs)[pairs[i].0] == pairs[i].1
  {
    IndexByLast(pairs, (p: (PyValue, PyValue)) => p.0, i);
  }
}
