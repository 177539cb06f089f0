/** The PHP values the SDK passes around: associative arrays with string keys,
    lists, scalars and DateTime objects, together with the few pieces of PHP
    semantics the SDK relies on (array_merge, truthiness of strings, reading an
    array offset, string conversion of booleans). */
module PhpValues {
  import opened Wrappers

  /** A DateTime object. Its RFC 3339 rendering is library code and is given to
      the model as a parameter wherever it is needed. */
  datatype DateTime = DateTime(year: int, month: int, day: int,
                               hour: int, minute: int, second: int,
                               offsetMinutes: int)

  /** A value that can sit inside a PHP array handed to the SDK. An array whose
      keys are 0..n-1 is a List; every other array is an Obj with string keys. */
  datatype Value =
    | Null
    | Bool(b: bool)
    | Int(i: int)
    | Str(s: string)
    | List(items: seq<Value>)
    | Obj(fields: map<string, Value>)
    | Date(at: DateTime)

  /** What a PHP `array` type declaration admits. */
  predicate IsArray(v: Value) {
    v.List? || v.Obj?
  }

  /** `array_merge($a, $b)` on string-keyed arrays: every key of either array,
      and on a shared key the later array wins. */
  function ArrayMerge(a: map<string, Value>, b: map<string, Value>): (r: map<string, Value>)
    ensures r.Keys == a.Keys + b.Keys
    ensures forall k :: k in b ==> r[k] == b[k]
    ensures forall k :: k in a && k !in b ==> r[k] == a[k]
  {
    a + b
  }

  /** Errors PHP raises while the SDK shapes a request, before any request
      is issued. */
  datatype Fatal =
      /** A method called on something that is not an object. */
    | MemberCallOnNonObject(member: string)
      /** A string parameter given a value that is not a string. */
    | TypeError(parameter: string)
      /** An object (here a DateTime) read as if it were an array. */
    | ObjectAsArray

  /** PHP truthiness of a string: only "" and "0" are falsy, so every string
      of two or more characters (even "00") is truthy. */
  predicate Truthy(s: string)
    ensures Truthy(s) ==> |s| > 0
    ensures |s| >= 2 ==> Truthy(s)
    ensures s == "0" ==> !Truthy(s)
  {
    s != "" && s != "0"
  }

  /** String conversion of a boolean, as the `.` operator performs it: true
      gives "1" and false gives "". */
  function BoolToString(b: bool): (s: string)
    ensures b ==> s == "1"
    ensures !b ==> s == ""
    ensures b <==> Truthy(s)
  {
    if b then "1" else ""
  }

  /** Reading `$v[$key]` with a string key: the entry when `$v` is an array
      holding the key; an error when `$v` is an object; null (with a warning)
      otherwise. */
  function Field(v: Value, key: string): (r: Result<Value, Fatal>)
    ensures v.Date? <==> r.Failure?
    ensures r.Failure? ==> r.error == ObjectAsArray
    ensures v.Obj? && key in v.fields ==> r == Success(v.fields[key])
    ensures !v.Date? && !(v.Obj? && key in v.fields) ==> r == Success(Null)
  {
    match v
    case Obj(fields) => Success(if key in fields then fields[key] else Null)
    case Date(_) => Failure(ObjectAsArray)
    case _ => Success(Null)
  }

  /** Reading `$v[0]`: the first element of a list, the entry under key "0"
      of any other array (PHP stores the key "0" as the integer 0), an error
      for an object, null otherwise. */
  function First(v: Value): (r: Result<Value, Fatal>)
    ensures v.Date? <==> r.Failure?
    ensures r.Failure? ==> r.error == ObjectAsArray
    ensures v.List? && |v.items| > 0 ==> r == Success(v.items[0])
    ensures v.List? && |v.items| == 0 ==> r == Success(Null)
    ensures !IsArray(v) && !v.Date? ==> r == Success(Null)
  {
    match v
    case List(items) => Success(if |items| > 0 then items[0] else Null)
    case Obj(fields) => Success(if "0" in fields then fields["0"] else Null)
    case Date(_) => Failure(ObjectAsArray)
    case _ => Success(Null)
  }
}
