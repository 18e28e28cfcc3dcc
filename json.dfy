/** The JSON values exchanged with the switch (numbers are modelled as integers). */
module Json {

  datatype Json =
    | Null
    | Bool(b: bool)
    | Num(n: int)
    | Str(s: string)
    | Arr(items: seq<Json>)
    | Obj(fields: map<string, Json>)

  /** True when `j` is an object carrying key `k` (Python's `k in j` on a dict). */
  predicate HasKey(j: Json, k: string)
  {
    j.Obj? && k in j.fields
  }
}
