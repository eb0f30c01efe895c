/**
 * The values `JSON.parse` produces and `JSON.stringify` consumes. The text
 * syntax of JSON is not part of this model; numbers are restricted to
 * integers.
 */
module Json {

  datatype Value =
    | Null
    | Bool(b: bool)
    | Num(n: int)
    | Str(s: string)
    | Arr(items: seq<Value>)
    | Obj(fields: map<string, Value>)
}
