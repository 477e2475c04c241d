/** JSON values as Go's `any` holds them after decoding. */
module Json {
  import opened GoText

  datatype Value =
    | Null
    | Bool(b: bool)
    | Number(n: real)
    | Str(s: string)
    | Arr(items: seq<Value>)
    | Obj(fields: map<string, Value>)

  /** Printing and parsing are the JSON library's; results that need them to be inverse say so. */
  type Printer = Value -> string

  /** Reading a missing key, or anything of a value that is no object, gives nil. */
  function Get(v: Value, key: string): Value {
    if v.Obj? && key in v.fields then v.fields[key] else Null
  }

  /** stringValue: strings are trimmed, anything else is empty. */
  function StringValue(v: Value): string {
    if v.Str? then Trim(v.s) else ""
  }

  function Items(v: Value): seq<Value> {
    if v.Arr? then v.items else []
  }

  lemma StringValueIsTrimmed(v: Value)
    ensures Trimmed(StringValue(v))
  {
    if v.Str? {
      TrimIsTrimmed(v.s);
    }
  }
}
