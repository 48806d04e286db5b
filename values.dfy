/** Option values as they appear in the health-check configuration. */
module Values {

  /** A configuration value. Constructors store these as given and never inspect them. */
  datatype Value =
    | NoneValue
    | Bool(b: bool)
    | Int(i: int)
    | Str(s: string)
    | List(items: seq<Value>)
    | Dict(entries: map<string, Value>)
}
