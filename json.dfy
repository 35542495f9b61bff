/** The loosely-typed activity objects the activities endpoint returns:
    each is a JSON object, modelled as a map from key to a scalar value. */
module Json {

  datatype Value =
    | Null
    | Num(x: real)
    | Str(s: string)
    | Bool(b: bool)

  /** One raw activity as decoded from the provider's JSON. */
  type Record = map<string, Value>
}
