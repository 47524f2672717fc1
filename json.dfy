/**
 * The JSON values a Mason document is made of. Numbers are integers only;
 * the documents built by the modelled code never hold any other kind.
 */
module Json {

  datatype Value =
    | Null
    | Bool(b: bool)
    | Num(n: int)
    | Str(s: string)
    | Arr(items: seq<Value>)
    | Obj(fields: map<string, Value>)
}
