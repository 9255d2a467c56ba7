/**
 * The dynamically typed values the benchmark tool passes around: decoded JSON
 * documents, Python configuration constants and the dictionaries built from them,
 * together with the few Python built-ins whose behaviour the rest of the model
 * depends on (dict.get, truthiness, numeric coercion, int()).
 */
module PyValue {
  import opened Wrappers
  import Strings

  /** A Python value as produced by json.load or written in a module. `Null` is None,
      which dict.get also returns for an absent key. */
  datatype Value =
    | Null
    | Bool(b: bool)
    | Int(i: int)
    | Float(r: real)
    | Str(s: string)
    | List(items: seq<Value>)
    | Tuple(elems: seq<Value>)
    | Dict(entries: map<string, Value>)

  /** The Python exceptions the modelled code can raise or catch. */
  datatype Exception =
    | TypeError
    | AttributeError
    | KeyError
    | ValueError
    | ZeroDivisionError
    | StatisticsError
    | IntegrityError

  type Dictionary = map<string, Value>

  /** d.get(key): the stored value, or None when the key is absent. */
  function Get(d: Dictionary, key: string): (v: Value)
    ensures key !in d ==> v == Null
    ensures key in d ==> v == d[key]
  {
    if key in d then d[key] else Null
  }

  /** d.get(key, default): the default is used only for an ABSENT key; a stored None stays None. */
  function GetOr(d: Dictionary, key: string, default: Value): (v: Value)
    ensures key !in d ==> v == default
    ensures key in d ==> v == d[key]
  {
    if key in d then d[key] else default
  }

  /** Python truthiness (bool(v)). */
  predicate Truthy(v: Value) {
    match v
    case Null => false
    case Bool(b) => b
    case Int(i) => i != 0
    case Float(r) => r != 0.0
    case Str(s) => s != ""
    case List(items) => items != []
    case Tuple(elems) => elems != []
    case Dict(entries) => entries != map[]
  }

  /** Python `a or b`: the first operand when it is truthy, else the second. */
  function Or(a: Value, b: Value): (v: Value)
    ensures Truthy(a) ==> v == a
    ensures !Truthy(a) ==> v == b
  {
    if Truthy(a) then a else b
  }

  /** Values that take part in arithmetic: bool is a subclass of int in Python. */
  predicate IsNumber(v: Value) {
    v.Bool? || v.Int? || v.Float?
  }

  /** isinstance(v, int), which holds for bools as well. */
  predicate IsInt(v: Value) {
    v.Bool? || v.Int?
  }

  /** The numeric value of a number; JSON floats and Python ints are both read as reals. */
  function AsReal(v: Value): real
    requires IsNumber(v)
  {
    match v
    case Bool(b) => if b then 1.0 else 0.0
    case Int(i) => i as real
    case Float(r) => r
  }

  /** Python `v == 0`: only numbers compare equal to zero. */
  predicate EqualsZero(v: Value) {
    IsNumber(v) && AsReal(v) == 0.0
  }

  /** Truncation toward zero, as int() does to a float. */
  function Trunc(r: real): (n: int)
    ensures 0.0 <= r ==> n as real <= r < n as real + 1.0
    ensures r < 0.0 ==> n as real - 1.0 < r <= n as real
  {
    if r >= 0.0 then r.Floor else -((-r).Floor)
  }

  /** Python int(v): truncates floats, maps bools to 0/1, parses decimal strings
      (ValueError otherwise) and raises TypeError for None, lists, tuples and dicts. */
  function IntOf(v: Value): (r: Result<int, Exception>)
    ensures v.Int? ==> r == Ok(v.i)
    ensures r.Err? ==> (r.error == ValueError <==> v.Str?)
    ensures (v.Null? || v.List? || v.Tuple? || v.Dict?) ==> r == Err(TypeError)
  {
    match v
    case Bool(b) => Ok(if b then 1 else 0)
    case Int(i) => Ok(i)
    case Float(x) => Ok(Trunc(x))
    case Str(s) =>
      (match Strings.ParseInt(s)
       case Some(n) => Ok(n)
       case None => Err(ValueError))
    case _ => Err(TypeError)
  }
}
