/** JSON values as request bodies and stored configurations carry them, with
    JavaScript's notion of a truthy value. */
module Json {
  import opened Wrappers

  datatype Json =
    | Null
    | Bool(b: bool)
    | Num(n: int)
    | Str(s: string)
    | Arr(items: seq<Json>)
    | Obj(fields: map<string, Json>)

  /** Whether a body field that may be absent (`undefined`) is truthy:
      absent, `null`, `false`, `0` and `""` are not. */
  predicate Truthy(v: Option<Json>) {
    match v
    case None => false
    case Some(Null) => false
    case Some(Bool(b)) => b
    case Some(Num(n)) => n != 0
    case Some(Str(s)) => s != ""
    case Some(_) => true
  }

  /** `v || {}`. */
  function OrEmptyObject(v: Option<Json>): (r: Json)
    ensures Truthy(v) ==> r == v.value
    ensures !Truthy(v) ==> r == Obj(map[])
  {
    if Truthy(v) then v.value else Obj(map[])
  }
}
