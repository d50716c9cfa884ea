/** JavaScript values as the live API client reads them from server frames, and the
    plain JSON objects it builds for the frames it sends. */
module JsValues {

  /** An optional value: `None` stands for a property that is absent (or `null`). */
  datatype Option<+T> = None | Some(value: T) {
    predicate IsFailure() { None? }

    function PropagateFailure<U>(): Option<U>
      requires None?
    {
      None
    }

    function Extract(): T
      requires Some?
    {
      value
    }
  }

  /** A leaf of an inbound frame. `Obj` is any object (always truthy). */
  datatype JsValue = Undefined | Null | Bool(b: bool) | Str(s: string) | Obj

  /** JavaScript truthiness: `undefined`, `null`, `false` and `""` are falsy. */
  predicate Truthy(v: JsValue) {
    match v
    case Undefined => false
    case Null => false
    case Bool(b) => b
    case Str(s) => s != ""
    case Obj => true
  }

  /** What `"..." + v` appends for `v`: JavaScript's string conversion. */
  function ToJsString(v: JsValue): string {
    match v
    case Undefined => "undefined"
    case Null => "null"
    case Bool(b) => if b then "true" else "false"
    case Str(s) => s
    case Obj => "[object Object]"
  }

  /** A JSON value as handed to `JSON.stringify`; object members keep insertion order. */
  datatype Json =
    | JNull
    | JBool(b: bool)
    | JString(s: string)
    | JArray(items: seq<Json>)
    | JObject(members: seq<Member>)

  datatype Member = Member(key: string, value: Json)

  /** The keys of an object, in insertion order. */
  function Keys(ms: seq<Member>): seq<string> {
    if ms == [] then [] else [ms[0].key] + Keys(ms[1..])
  }

  /** Reading `o[key]`: the value of the first member with that key. */
  function Get(ms: seq<Member>, key: string): (r: Option<Json>)
    ensures r.Some? <==> key in Keys(ms)
  {
    if ms == [] then None
    else if ms[0].key == key then Some(ms[0].value)
    else Get(ms[1..], key)
  }

  /** Reading `j[key]` where `j` may not be an object at all. */
  function Lookup(j: Json, key: string): Option<Json> {
    if j.JObject? then Get(j.members, key) else None
  }

  /** The assignment `o[key] = v` for a key that is not an array index (every key the
      client assigns): an existing key keeps its place and gets the new value, a new key
      is added last. */
  function Set(ms: seq<Member>, key: string, v: Json): (r: seq<Member>)
    ensures Keys(r) == if key in Keys(ms) then Keys(ms) else Keys(ms) + [key]
  {
    if ms == [] then [Member(key, v)]
    else if ms[0].key == key then [Member(key, v)] + ms[1..]
    else [ms[0]] + Set(ms[1..], key, v)
  }

  /** After `o[key] = v`, reading `key` gives `v` and every other key reads as before. */
  lemma {:induction false} GetSet(ms: seq<Member>, key: string, v: Json, k: string)
    ensures Get(Set(ms, key, v), k) == if k == key then Some(v) else Get(ms, k)
  {
    if ms != [] && ms[0].key != key {
      GetSet(ms[1..], key, v, k);
    }
  }

  /** Reading a key of a two-member object literal. */
  lemma GetPair(a: Member, b: Member)
    ensures Keys([a, b]) == [a.key, b.key]
    ensures forall k ::
      Get([a, b], k) == (if a.key == k then Some(a.value) else if b.key == k then Some(b.value) else None)
  {
    assert [a, b][1..] == [b];
    assert Keys([b]) == [b.key];
  }

  /** Reading a key of a three-member object literal. */
  lemma GetTriple(a: Member, b: Member, c: Member)
    ensures Keys([a, b, c]) == [a.key, b.key, c.key]
    ensures forall k ::
      Get([a, b, c], k) == (if a.key == k then Some(a.value) else if b.key == k then Some(b.value)
      else if c.key == k then Some(c.value) else None)
  {
    assert [a, b, c][1..] == [b, c];
    GetPair(b, c);
  }
}
