/** Parsed JSON documents, as the dictionaries and lists the source works on. */
module JsonValues {
  import opened Common

  datatype Json =
    | Null
    | Bool(b: bool)
    | Int(n: int)
    | Float(r: real)
    | Str(s: string)
    | Arr(items: seq<Json>)
    | Obj(fields: map<string, Json>)

  // dict.get: an absent key reads as null.
  function Get(fields: map<string, Json>, key: string): Json {
    if key in fields then fields[key] else Null
  }

  // The members iterated over when only dictionaries among them matter.
  function Members(j: Json): seq<Json> {
    if j.Arr? then j.items else []
  }
}
