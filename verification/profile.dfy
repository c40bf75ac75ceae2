/** The learner level sent with every chat request: the stored profile's
    `level` when it is truthy, otherwise 1. */
module Profile {
  import opened Wrappers

  /** A parsed JSON value. */
  datatype Json =
    | JNull
    | JBool(b: bool)
    | JNumber(n: real)
    | JString(s: string)
    | JArray(items: seq<Json>)
    | JObject(fields: map<string, Json>)

  /** JavaScript truthiness of a JSON value. */
  predicate Truthy(v: Json)
  {
    match v
    case JNull => false
    case JBool(b) => b
    case JNumber(n) => n != 0.0
    case JString(s) => s != ""
    case _ => true
  }

  const DefaultLevel: Json := JNumber(1.0)

  /** `v?.level`: only an object with a `level` key yields a value; null and
      every other value read the property as undefined. */
  function LevelField(v: Json): Option<Json>
  {
    if v.JObject? && "level" in v.fields then Some(v.fields["level"]) else None
  }

  /** The `level` the stored profile carries, if any. `stored` is the
      profile string in browser storage (None when absent); `parse` is
      `JSON.parse`, None standing for a parse that throws. An empty stored
      string is falsy and is never parsed. */
  function StoredLevel(stored: Option<string>, parse: string -> Option<Json>): Option<Json>
  {
    if stored.None? || stored.value == "" then None
    else
      match parse(stored.value)
      case None => None
      case Some(v) => LevelField(v)
  }

  /** `userLevel`: always truthy; it is the stored level exactly when that
      level exists and is truthy, and 1 in every other case (no profile, an
      empty one, one that does not parse, one without a truthy level). */
  function UserLevel(stored: Option<string>, parse: string -> Option<Json>): (r: Json)
    ensures Truthy(r)
    ensures StoredLevel(stored, parse).Some? && Truthy(StoredLevel(stored, parse).value)
      ==> r == StoredLevel(stored, parse).value
    ensures !(StoredLevel(stored, parse).Some? && Truthy(StoredLevel(stored, parse).value))
      ==> r == DefaultLevel
  {
    match StoredLevel(stored, parse)
    case Some(v) => if Truthy(v) then v else DefaultLevel
    case None => DefaultLevel
  }
}
