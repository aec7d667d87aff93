/** PHP values as the state machine and its collaborators see them. */
module Values {

  datatype Option<+T> = None | Some(value: T)

  datatype Result<+R, +E> = Success(value: R) | Failure(error: E)

  /**
   * A dynamically typed PHP value. `Str` stands for a string or a stringable
   * object, `Arr` for an array with string keys, `Obj` for any other object
   * (one that is neither a string nor stringable).
   */
  datatype Value =
    | Null
    | Bool(b: bool)
    | Int(i: int)
    | Str(s: string)
    | Arr(entries: map<string, Value>)
    | Obj(id: nat)

  /** PHP's conversion to boolean, as `if ($v)` applies it. */
  predicate Truthy(v: Value)
  {
    match v
    case Null => false
    case Bool(b) => b
    case Int(i) => i != 0
    case Str(s) => s != "" && s != "0"
    case Arr(m) => |m| != 0
    case Obj(_) => true
  }
}
