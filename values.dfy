/** The dynamically typed values that travel between stages: keyword
    arguments, result payloads and the dictionaries built from them. */
module Values {

  datatype Option<+T> = None | Some(value: T)

  /** A value, or the text of the exception that prevented it. */
  datatype Result<T> = Success(value: T) | Failure(error: string)

  /** A Python value as it can appear in a `Dict[str, Any]` payload. */
  datatype Value =
    | Null
    | Bool(b: bool)
    | Int(i: int)
    | Real(r: real)
    | Str(s: string)
    | List(items: seq<Value>)
    | Dict(entries: map<string, Value>)

  /** The keyword-argument bag passed to every stage. */
  type Context = map<string, Value>

  function OptionalString(s: Option<string>): Value
  {
    match s
    case None => Null
    case Some(t) => Str(t)
  }

  /** Python's name for the type of a value. */
  function TypeName(v: Value): string
  {
    match v
    case Null => "NoneType"
    case Bool(_) => "bool"
    case Int(_) => "int"
    case Real(_) => "float"
    case Str(_) => "str"
    case List(_) => "list"
    case Dict(_) => "dict"
  }

  /** The `TypeError` text that `pathlib.Path` (Python 3.12) raises for an
      argument that is neither a string nor path-like. */
  function PathArgumentError(v: Value): string
  {
    "argument should be a str or an os.PathLike object where __fspath__ returns a str, not '" + TypeName(v) + "'"
  }
}
