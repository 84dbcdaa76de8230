// Parsed JSON documents, as encoding/json hands them over: numbers are kept as
// an opaque text, objects as finite maps.
module Json {
  import opened Base

  datatype Json =
    | Null
    | Bool(truth: bool)
    | Num(text: string)
    | Str(text: string)
    | Arr(items: seq<Json>)
    | Obj(fields: map<string, Json>)

  /** Both walkers name a nested key by its parent's path, a dot and the key; the root has the empty path. */
  function JoinPath(path: string, key: string): string {
    if path == "" then key else path + "." + key
  }

  // ---- Paths into a document ----

  datatype Step = Key(key: string) | Index(index: nat)

  function ValueAt(v: Json, path: seq<Step>): Option<Json>
    decreases |path|
  {
    if path == [] then Some(v)
    else match path[0]
      case Key(k) => if v.Obj? && k in v.fields then ValueAt(v.fields[k], path[1..]) else None
      case Index(i) => if v.Arr? && i < |v.items| then ValueAt(v.items[i], path[1..]) else None
  }
}
