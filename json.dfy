/** JSON values as the core receives them from `r.json()`, the exceptions the
    core raises, and the two Python operators the core applies to a response:
    membership (`key in response`) and subscription (`response[key]`). */
module Json {
  import opened Wrappers

  /** A decoded JSON document. Numbers are integers only. */
  datatype Value =
    | Null
    | Bool(b: bool)
    | Num(n: int)
    | Str(s: string)
    | Arr(items: seq<Value>)
    | Obj(fields: map<string, Value>)

  /** The exceptions raised by the core, by Python exception class. */
  datatype Error =
    | RuntimeError(message: string)  // a failed request, re-raised with a fixed message
    | ValueError(message: string)    // a failed validation, with the source's message
    | TypeError                      // raised by the interpreter; its text is not modelled
    | KeyError(key: string)          // subscription of a dict with a missing key
    | ShapeError                     // a table built from a `data` value that is not a list

  /** `k in s` on Python strings: `k` occurs as a contiguous run of `s`. */
  predicate IsSubstring(k: string, s: string)
    decreases |s|
  {
    |k| <= |s| && (s[..|k|] == k || (|s| > 0 && IsSubstring(k, s[1..])))
  }

  /** The values Python's `in` accepts on its right: dict, list and str. */
  predicate Iterable(v: Value)
  {
    v.Obj? || v.Arr? || v.Str?
  }

  /** Python's `key in container` for a string `key`: key membership on a
      dict, element membership on a list, substring on a str, and a
      TypeError on a number, a bool or None. */
  function Contains(container: Value, key: string): Result<bool, Error>
  {
    match container
    case Obj(fields) => Success(key in fields)
    case Arr(items) => Success(Str(key) in items)
    case Str(s) => Success(IsSubstring(key, s))
    case _ => Failure(TypeError)
  }

  /** Python's `container[key]` for a string `key`: only a dict can be
      subscripted by a string. */
  function Subscript(container: Value, key: string): Result<Value, Error>
  {
    match container
    case Obj(fields) => if key in fields then Success(fields[key]) else Failure(KeyError(key))
    case _ => Failure(TypeError)
  }

  /** Membership is decided exactly for the values Python's `in` accepts, and
      on a dict it agrees with the subscription that follows it. */
  lemma ContainsThenSubscript(v: Value, key: string)
    ensures Contains(v, key).Success? <==> Iterable(v)
    ensures v.Obj? && Contains(v, key) == Success(true) ==> Subscript(v, key) == Success(v.fields[key])
    ensures v.Obj? && Contains(v, key) == Success(false) ==> Subscript(v, key) == Failure(KeyError(key))
  {
  }
}
