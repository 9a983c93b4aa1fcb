/**
 * The Python values that the client handles: decoded JSON responses,
 * request bodies and query parameters. Floating-point numbers are not
 * represented.
 */
module Values {
  import opened Results

  datatype Value =
    | Null                          // None
    | Bool(b: bool)
    | Int(i: int)
    | Str(s: string)
    | List(items: seq<Value>)
    | Dict(entries: map<string, Value>)

  /** The exceptions that the modelled code can raise. */
  datatype PyError = KeyError | IndexError | TypeError | ValueError

  /** `v[key]` for a string key. */
  function Subscript(v: Value, key: string): Result<Value, PyError>
  {
    match v
    case Dict(m) => if key in m then Ok(m[key]) else Err(KeyError)
    case _ => Err(TypeError)  // lists and strings need integer indices; scalars are not subscriptable
  }

  /** `v[i]` for a non-negative integer index. */
  function Index(v: Value, i: nat): Result<Value, PyError>
  {
    match v
    case List(items) => if i < |items| then Ok(items[i]) else Err(IndexError)
    case Str(s) => if i < |s| then Ok(Str([s[i]])) else Err(IndexError)
    case Dict(_) => Err(KeyError)  // decoded JSON objects have string keys only
    case _ => Err(TypeError)
  }

  /** Python truthiness, as used by `not v`. */
  predicate Truthy(v: Value)
  {
    match v
    case Null => false
    case Bool(b) => b
    case Int(i) => i != 0
    case Str(s) => s != ""
    case List(items) => items != []
    case Dict(m) => m != map[]
  }

  /** `v[a][i]`, the lookup `response['result'][0]`. */
  function SubscriptIndex(v: Value, key: string, i: nat): Result<Value, PyError>
  {
    match Subscript(v, key)
    case Err(e) => Err(e)
    case Ok(w) => Index(w, i)
  }
}
