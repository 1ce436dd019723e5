/**
 A parsed JSON value, as PHP's decoder hands it to the object layer: objects are
 `stdClass` instances, modelled here as maps from member name to value, and lists
 are PHP arrays. Numbers are integers only (resource ids in this layer are opaque).
 */
module Json {

  datatype Value =
    | Null
    | Bool(b: bool)
    | Number(n: int)
    | Str(s: string)
    | List(items: seq<Value>)
    | Object(members: map<string, Value>)

  /** The members of a `stdClass` instance. */
  type Members = map<string, Value>

  /** Reads a member of an object, with PHP's "absent reads as null" convention. */
  function MemberOrNull(obj: Members, key: string): Value
  {
    if key in obj then obj[key] else Null
  }
}
