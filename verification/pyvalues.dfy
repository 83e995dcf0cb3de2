/**
 * The slice of Python's data model that the collection cycle relies on: the values a check
 * can return, the exceptions a statement can raise, truthiness, the two different
 * "is it false?" tests the agent uses, and subscripting of dictionaries and tuples.
 */
module PyValues {
  import opened Wrappers

  /** A JSON-like Python value. Tuples are represented as lists; floats are not distinguished from ints. */
  datatype Value =
    | Bool(b: bool)
    | Null
    | Num(n: int)
    | Str(s: string)
    | List(items: seq<Value>)
    | Dict(fields: map<string, Value>)

  /** A Python dictionary with string keys, such as the payload or the agent configuration. */
  type Fields = map<string, Value>

  const EmptyDict: Value := Dict(map[])

  /**
   * The exceptions the model distinguishes. `Other` is any further subclass of `Exception`;
   * `BaseOnly` is a `BaseException` that is not an `Exception` (`SystemExit`, `KeyboardInterrupt`),
   * which an `except Exception` clause does not catch.
   */
  datatype Exc =
    | TypeError
    | ValueError
    | KeyError(key: Value)
    | IndexError
    | AttributeError(name: string)
    | Other(name: string)
    | BaseOnly(name: string)

  /** True for the exceptions that `except Exception` catches. */
  predicate IsException(e: Exc) {
    !e.BaseOnly?
  }

  /** Python truthiness (`if v:`). */
  predicate Truthy(v: Value) {
    match v
    case Bool(b) => b
    case Null => false
    case Num(n) => n != 0
    case Str(s) => |s| > 0
    case List(xs) => |xs| > 0
    case Dict(m) => |m| > 0
  }

  /** Python equality with `False` (`v == False`): holds for `False` and for the number 0, not for `None` or `{}`. */
  predicate EqualsFalse(v: Value) {
    v == Bool(false) || v == Num(0)
  }

  /** Python identity test `v is False or v is None`. */
  predicate IsFalseOrNone(v: Value) {
    v == Bool(false) || v == Null
  }

  /** `v[k]` for a string key: only a dictionary holding `k` yields a value. */
  function GetItem(v: Value, k: string): (r: Result<Value, Exc>)
    ensures r.Success? <==> v.Dict? && k in v.fields
    ensures r.Success? ==> r.value == v.fields[k]
    ensures v.Dict? && k !in v.fields ==> r == Failure(KeyError(Str(k)))
  {
    match v
    case Dict(m) => if k in m then Success(m[k]) else Failure(KeyError(Str(k)))
    case _ => Failure(TypeError)
  }

  /** `v[i]` for a non-negative integer index, as used on the `(timestamp, data)` snapshot tuple. */
  function Item(v: Value, i: nat): (r: Result<Value, Exc>)
    ensures v.List? && i < |v.items| ==> r == Success(v.items[i])
    ensures v.List? && i >= |v.items| ==> r == Failure(IndexError)
    ensures r.Success? ==> v.List? || v.Str?
  {
    match v
    case List(xs) => if i < |xs| then Success(xs[i]) else Failure(IndexError)
    case Str(s) => if i < |s| then Success(Str([s[i]])) else Failure(IndexError)
    case Dict(m) => Failure(KeyError(Num(i)))
    case _ => Failure(TypeError)
  }

  /** `v[k] = x` for a string key: only a dictionary supports it. */
  function SetItem(v: Value, k: string, x: Value): (r: Result<Value, Exc>)
    ensures r.Success? <==> v.Dict?
    ensures r.Success? ==> r.value == Dict(v.fields[k := x])
  {
    match v
    case Dict(m) => Success(Dict(m[k := x]))
    case _ => Failure(TypeError)
  }
}
