/** Parsed JSON values, as the server handles tool results and schemas. */
module Json {
  datatype Json =
    | Null
    | Bool(b: bool)
    | Num(n: real)
    | Str(s: string)
    | Arr(items: seq<Json>)
    | Obj(fields: map<string, Json>)

  /** `w` is what trimming may leave of `v`: objects lose fields, arrays and strings lose their ends. */
  predicate Trimmed(v: Json, w: Json)
    decreases v
  {
    match v
    case Str(s) => w.Str? && w.s <= s
    case Arr(items) =>
      && w.Arr?
      && |w.items| <= |items|
      && forall i | 0 <= i < |w.items| :: Trimmed(items[i], w.items[i])
    case Obj(fields) =>
      && w.Obj?
      && w.fields.Keys <= fields.Keys
      && forall k | k in fields && k in w.fields :: Trimmed(fields[k], w.fields[k])
    case _ => w == v
  }
}
