/**
 JSON values as the JavaScript runtime sees them: an object is a list of members in
 insertion order, and a number is kept as the text it prints to.
 */
module Json {
  datatype Option<+T> = None | Some(value: T)

  datatype Json =
    | Null
    | Bool(b: bool)
    | Num(text: string)
    | Str(s: string)
    | Arr(items: seq<Json>)
    | Obj(members: seq<Member>)

  datatype Member = Member(key: string, value: Json)

  // One step from a value to one of its parts.
  datatype Selector = Index(i: nat) | Key(k: string)

  // The value of property `key`: the first member with that key.
  function Get(members: seq<Member>, key: string): Option<Json> {
    if members == [] then None
    else if members[0].key == key then Some(members[0].value)
    else Get(members[1..], key)
  }

  function Select(v: Json, sel: Selector): Option<Json> {
    match (v, sel)
    case (Arr(items), Index(i)) => if i < |items| then Some(items[i]) else None
    case (Obj(members), Key(k)) => Get(members, k)
    case _ => None
  }

  function At(v: Json, path: seq<Selector>): Option<Json>
    decreases |path|
  {
    if path == [] then Some(v)
    else match Select(v, path[0])
      case None => None
      case Some(part) => At(part, path[1..])
  }
}
