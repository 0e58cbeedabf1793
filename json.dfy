/** The subset of `serde_json::Value` the client builds and inspects, with the
    accessors its combinator chains use (`get`, `as_array`, `as_str`). */
module JsonValue {
  import opened Wrappers

  /** A JSON value. `Real` keeps a non-integer number by its literal text:
      the client only ever writes such numbers, it never computes with them. */
  datatype Json =
    | Null
    | Bool(b: bool)
    | Int(i: int)
    | Real(literal: string)
    | Str(s: string)
    | Arr(items: seq<Json>)
    | Obj(members: seq<Member>)

  /** One key/value pair of an object. A member list may repeat a key, which
      a map built by serde does not (there the last duplicate wins). */
  datatype Member = Member(key: string, value: Json)

  /** The value stored under `key` in a member list, if any. */
  function Lookup(members: seq<Member>, key: string): (r: Option<Json>)
    ensures r.Some? <==> exists i :: 0 <= i < |members| && members[i].key == key
    ensures r.Some? ==> exists i :: 0 <= i < |members| && members[i] == Member(key, r.value)
  {
    if members == [] then None
    else if members[0].key == key then Some(members[0].value)
    else
      var r := Lookup(members[1..], key);
      assert forall i :: 1 <= i < |members| ==> members[i] == members[1..][i - 1];
      r
  }

  /** The value found is that of the first member with the key. */
  lemma {:induction false} LookupFirst(members: seq<Member>, i: nat, key: string)
    requires i < |members| && members[i].key == key
    requires forall j :: 0 <= j < i ==> members[j].key != key
    ensures Lookup(members, key) == Some(members[i].value)
  {
    if i > 0 {
      LookupFirst(members[1..], i - 1, key);
    }
  }

  /** `Value::get(key)`: a member of an object; `None` for any other value. */
  function Get(j: Json, key: string): Option<Json> {
    if j.Obj? then Lookup(j.members, key) else None
  }

  /** `.and_then(|v| v.get(key))` on an optional value. */
  function Field(o: Option<Json>, key: string): Option<Json> {
    if o.Some? then Get(o.value, key) else None
  }

  /** `.and_then(|v| v.as_array()).and_then(|arr| arr.get(0))`: the first
      element of an optional array. */
  function First(o: Option<Json>): Option<Json> {
    if o.Some? && o.value.Arr? && |o.value.items| > 0 then Some(o.value.items[0]) else None
  }

  /** `.and_then(|v| v.as_str()).map(|s| s.to_string())`. */
  function AsText(o: Option<Json>): Option<string> {
    if o.Some? && o.value.Str? then Some(o.value.s) else None
  }

  /** The members that the `json!` macro builds for a chat message. */
  function RoleMessage(role: string, content: string): Json {
    Obj([Member("role", Str(role)), Member("content", Str(content))])
  }

  /** The content of a chat message with the given role, as a provider
      reading the request would take it. */
  function ContentOf(message: Json, role: string): Option<string> {
    if Get(message, "role") == Some(Str(role)) then AsText(Get(message, "content")) else None
  }

  lemma RoleMessageContent(role: string, content: string)
    ensures ContentOf(RoleMessage(role, content), role) == Some(content)
  {
    LookupFirst(RoleMessage(role, content).members, 1, "content");
  }

  /** A compact JSON rendering, standing in for `serde_json::to_string_pretty`
      where an error message embeds a response. */
  function Render(j: Json): string
    decreases j, 1
  {
    match j
    case Null => "null"
    case Bool(b) => if b then "true" else "false"
    case Int(i) => IntText(i)
    case Real(literal) => literal
    case Str(s) => Quote(s)
    case Arr(items) => "[" + RenderItems(j, items) + "]"
    case Obj(members) => "{" + RenderMembers(j, members) + "}"
  }

  function RenderItems(parent: Json, items: seq<Json>): string
    requires forall x :: x in items ==> x < parent
    decreases parent, 0, |items|
  {
    if items == [] then ""
    else
      assert items[0] in items;
      assert forall x :: x in items[1..] ==> x in items;
      Render(items[0]) + (if |items| == 1 then "" else "," + RenderItems(parent, items[1..]))
  }

  function RenderMembers(parent: Json, members: seq<Member>): string
    requires forall m :: m in members ==> m.value < parent
    decreases parent, 0, |members|
  {
    if members == [] then ""
    else
      assert members[0] in members;
      assert forall m :: m in members[1..] ==> m in members;
      Quote(members[0].key) + ":" + Render(members[0].value)
      + (if |members| == 1 then "" else "," + RenderMembers(parent, members[1..]))
  }

  function Quote(s: string): string {
    "\"" + Escape(s) + "\""
  }

  function Escape(s: string): string {
    if s == [] then ""
    else (if s[0] == '"' then "\\\"" else if s[0] == '\\' then "\\\\" else [s[0]]) + Escape(s[1..])
  }

  function IntText(i: int): string
    decreases if i < 0 then 1 - i else i
  {
    if i < 0 then "-" + IntText(-i)
    else if i < 10 then ["0123456789"[i]]
    else IntText(i / 10) + ["0123456789"[i % 10]]
  }
}
