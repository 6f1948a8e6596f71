/** The decoded JSON request body that the route handlers pass to the validators.
    Numbers are modelled as reals: the validators only compare them with constants. */
module Json {

  datatype Json =
    | JNull
    | JBool(b: bool)
    | JNum(n: real)
    | JStr(s: string)
    | JArr(items: seq<Json>)
    | JObj(fields: map<string, Json>)
}
