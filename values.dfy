/**
 * Python values as the modelled code sees them: the decoded JSON body of a
 * request or a literal dict in a test. Lists and tuples are both `List`;
 * dict keys are strings, as in JSON.
 */
module PyValues {
  import opened Wrappers

  datatype Value =
    | Null                              // Python's None
    | Bool(b: bool)
    | Int(i: int)
    | Str(s: string)
    | List(items: seq<Value>)
    | Dict(fields: map<string, Value>)

  /** The Python exceptions the modelled code can raise. */
  datatype PyError =
    | KeyError(key: string)             // `d[k]` with k missing
    | TypeError                         // wrong arguments to a call, `**` on a non-mapping, not iterable, not subscriptable
    | AttributeError(name: string)      // attribute missing on the object
    | NameError(name: string)           // name not bound in the module

  /** `v[key]` for a string key. */
  function Subscript(v: Value, key: string): Result<Value, PyError>
  {
    match v
    case Dict(fields) => if key in fields then Ok(fields[key]) else Err(KeyError(key))
    case _ => Err(TypeError)
  }
}
