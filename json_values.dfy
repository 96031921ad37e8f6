/** The value a JSON parser produces from the model's reply. */
module JsonValues {
  import opened Outcomes

  /**
   * A parsed JSON value. Objects are maps from member name to value: when a
   * document repeats a member name the parser keeps the last one, so the
   * parsed object is a function of its names.
   */
  datatype Json =
    | Null
    | Bool(b: bool)
    | Number(r: real)
    | String(s: string)
    | Array(items: seq<Json>)
    | Object(members: map<string, Json>)

  /** `v.get(name)` on an object: the member, if present. */
  function Member(v: Json, name: string): Option<Json> {
    if v.Object? && name in v.members then Some(v.members[name]) else None
  }

  /** The text of a member whose value is a JSON string. */
  function StringMember(v: Json, name: string): Option<string> {
    match Member(v, name)
    case Some(String(s)) => Some(s)
    case _ => None
  }

  /** The truth value of a member whose value is a JSON boolean. */
  function BoolMember(v: Json, name: string): Option<bool> {
    match Member(v, name)
    case Some(Bool(b)) => Some(b)
    case _ => None
  }
}
