/** The JSON-like values that `yaml.safe_load` produces and that the
    configuration dictionaries hold. Mapping keys are strings. */
module Values {
  datatype Value =
    | Null
    | Bool(b: bool)
    | Int(i: int)
    | Str(s: string)
    | List(items: seq<Value>)
    | Dict(entries: map<string, Value>)
}
