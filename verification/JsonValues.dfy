/** JSON values as `serde_json::Value` holds them, objects without their key order.
    Numbers are the integers `serde_json` keeps exactly: those that fit in an `i64` or a `u64`. */
module JsonValues {

  datatype Option<+T> = None | Some(value: T)

  type JsonInt = n: int | -0x8000_0000_0000_0000 <= n < 0x1_0000_0000_0000_0000

  datatype Json =
    | Null
    | Bool(b: bool)
    | Num(n: JsonInt)
    | Str(s: string)
    | Arr(items: seq<Json>)
    | Obj(fields: map<string, Json>)
  {
    predicate IsScalar() {
      !Arr? && !Obj?
    }
  }
}
