/** The Python values `json.loads` produces, and the two Python operations on them
    that the modelled code applies: truthiness and the `in` operator. */
module JsonValue {
  import opened Wrappers
  import opened Exceptions
  import PyText

  /** A decoded JSON document. `json.loads` gives an `int` for a number without a
      fraction or exponent and a `float` otherwise; a float is kept as a Dafny `real`,
      since only its Python type and its truthiness (zero or not) matter to the
      modelled code. */
  datatype Json =
    | Null
    | Bool(b: bool)
    | Number(n: int)
    | Float(x: real)
    | Str(s: string)
    | Array(items: seq<Json>)
    | Object(fields: map<string, Json>)

  /** The name Python gives the type of the decoded value. */
  function TypeName(v: Json): string {
    match v
    case Null => "NoneType"
    case Bool(_) => "bool"
    case Number(_) => "int"
    case Float(_) => "float"
    case Str(_) => "str"
    case Array(_) => "list"
    case Object(_) => "dict"
  }

  /** Python's `bool(v)`: `None`, `False`, zero and empty containers are false. */
  predicate Truthy(v: Json) {
    match v
    case Null => false
    case Bool(b) => b
    case Number(n) => n != 0
    case Float(x) => x != 0.0
    case Str(s) => s != []
    case Array(a) => a != []
    case Object(m) => m != map[]
  }

  /** Python's `key in v` for a string `key`: key membership for a dict, element
      equality for a list, substring for a string, and a TypeError naming the value's
      type ("argument of type 'int' is not iterable") for a value that is not a container. */
  function In(key: string, v: Json): (r: Result<bool, PyError>)
    ensures r.Failure? <==> v.Null? || v.Bool? || v.Number? || v.Float?
    ensures r.Failure? ==> r.error == TypeError(TypeName(v))
    ensures v.Object? ==> r == Success(key in v.fields)
    ensures v.Array? ==> r == Success(exists k :: 0 <= k < |v.items| && v.items[k] == Str(key))
    ensures v.Str? ==> r.Success? && (r.value <==> exists k :: PyText.MatchAt(v.s, key, k))
  {
    match v
    case Object(m) => Success(key in m)
    case Array(a) => Success(Str(key) in a)
    case Str(s) => Success(PyText.Contains(s, key))
    case _ => Failure(TypeError(TypeName(v)))
  }
}
