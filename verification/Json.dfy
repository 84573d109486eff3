/** JSON documents as trees, the mutable object the serialisers fill, and the accessors the loaders use. */
module Json {

  datatype Json =
    | JString(text: string)
    | JBool(flag: bool)
    | JInt(int64: int)
    | JDouble(double: real)
    | JArray(items: seq<Json>)
    | JObject(members: Members)

  type Members = map<string, Json>

  predicate ValueExists(view: Json, key: string) {
    view.JObject? && key in view.members
  }

  /* Accessors; a value of another kind reads as the empty one. */

  function AsString(view: Json): string {
    if view.JString? then view.text else ""
  }

  function AsObject(view: Json): Members {
    if view.JObject? then view.members else map[]
  }

  function GetString(view: Json, key: string): string {
    if ValueExists(view, key) then AsString(view.members[key]) else ""
  }

  function GetBool(view: Json, key: string): bool {
    ValueExists(view, key) && view.members[key].JBool? && view.members[key].flag
  }

  function GetInt64(view: Json, key: string): int {
    if ValueExists(view, key) && view.members[key].JInt? then view.members[key].int64 else 0
  }

  function GetDouble(view: Json, key: string): real {
    if ValueExists(view, key) && view.members[key].JDouble? then view.members[key].double else 0.0
  }

  function GetArray(view: Json, key: string): seq<Json> {
    if ValueExists(view, key) && view.members[key].JArray? then view.members[key].items else []
  }

  function GetJsonObject(view: Json, key: string): Json {
    if ValueExists(view, key) then view.members[key] else JObject(map[])
  }

  /** JsonObject, while it is being filled. */
  class JsonObject {
    var members: Members

    constructor ()
      ensures members == map[]
    {
      members := map[];
    }

    method WithValue(key: string, value: Json)
      modifies this
      ensures members == old(members)[key := value]
    {
      members := members[key := value];
    }
  }
}
