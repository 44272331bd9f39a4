/** The JavaScript values the core handles: parsed JSON, thrown values,
    promise settlements, and the JSON codec, which is kept abstract. */
module Js {
  import opened Wrappers

  /** A value produced by `JSON.parse`. Object members keep their insertion
      order, which is the order `JSON.stringify` writes them in. */
  datatype Json =
    | JNull
    | JBool(b: bool)
    | JNumber(n: real)
    | JString(s: string)
    | JArray(items: seq<Json>)
    | JObject(members: seq<(string, Json)>)

  /** `JSON.parse` (failing with the text of the SyntaxError) and
      `JSON.stringify`, supplied from outside the model. */
  datatype Codec = Codec(parse: string -> Result<Json, string>, stringify: Json -> string)

  /** Parsing what the codec printed for `j` gives `j` back. `JSON.parse`
      and `JSON.stringify` do this for the values a parse produces (finite
      numbers, no repeated keys), not for every `Json`, so it is assumed
      value by value. */
  predicate Reparses(c: Codec, j: Json) {
    c.parse(c.stringify(j)) == Success(j)
  }

  /** JavaScript truthiness of a parsed JSON value: `null`, `false`, `0` and
      `""` are falsy, everything else (arrays and objects included) is truthy. */
  predicate Truthy(j: Json) {
    match j
    case JNull => false
    case JBool(b) => b
    case JNumber(n) => n != 0.0
    case JString(s) => s != ""
    case JArray(_) => true
    case JObject(_) => true
  }

  /** Property access `j.key` on a parsed JSON body; `None` is `undefined`.
      When `JSON.parse` meets a key twice the later value wins. */
  function Member(j: Json, key: string): (r: Option<Json>)
    ensures r.Some? ==> j.JObject? && exists i :: 0 <= i < |j.members| && j.members[i] == (key, r.value)
    ensures r.None? ==> !j.JObject? || forall i :: 0 <= i < |j.members| ==> j.members[i].0 != key
  {
    match j
    case JObject(ms) => LastMember(ms, key)
    case _ => None
  }

  function LastMember(ms: seq<(string, Json)>, key: string): (r: Option<Json>)
    ensures r.Some? ==> exists i :: 0 <= i < |ms| && ms[i] == (key, r.value)
    ensures r.None? ==> forall i :: 0 <= i < |ms| ==> ms[i].0 != key
  {
    if ms == [] then None
    else if ms[|ms| - 1].0 == key then Some(ms[|ms| - 1].1)
    else LastMember(ms[..|ms| - 1], key)
  }

  /** Looking a key up in an object that ends with a given member. */
  lemma LastMemberSnoc(ms: seq<(string, Json)>, k: string, v: Json, key: string)
    ensures LastMember(ms + [(k, v)], key) == if k == key then Some(v) else LastMember(ms, key)
  {
    assert (ms + [(k, v)])[..|ms|] == ms;
  }

  /** Looking a key up in an object written with three members. */
  lemma LastMemberOf3(a: (string, Json), b: (string, Json), c: (string, Json), key: string)
    ensures LastMember([a, b, c], key)
            == if c.0 == key then Some(c.1) else if b.0 == key then Some(b.1)
               else if a.0 == key then Some(a.1) else None
  {
    assert [a, b, c][..2] == [a, b];
    assert [a, b][..1] == [a];
    assert [a][..0] == [];
    assert LastMember([a], key) == if a.0 == key then Some(a.1) else None;
    assert LastMember([a, b], key) == if b.0 == key then Some(b.1) else LastMember([a], key);
  }

  /** A value caught by a `catch` clause: an `Error` object with its message, or anything else. */
  datatype Thrown = ErrorObject(message: string) | OtherValue

  /** `error instanceof Error ? error.message : fallback`. */
  function MessageOr(t: Thrown, fallback: string): string {
    match t
    case ErrorObject(msg) => msg
    case OtherValue => fallback
  }

  /** The state of a promise the model keeps track of. */
  datatype Settlement = Pending | Resolved | Rejected(reason: string)

  /** Settles every still-pending promise with `s`; settled ones keep their state. */
  function SettleAll(ps: seq<Settlement>, s: Settlement): (r: seq<Settlement>)
    ensures |r| == |ps|
    ensures forall i :: 0 <= i < |ps| ==> r[i] == (if ps[i] == Pending then s else ps[i])
  {
    if ps == [] then []
    else SettleAll(ps[..|ps| - 1], s) + [if ps[|ps| - 1] == Pending then s else ps[|ps| - 1]]
  }

  predicate NoPending(ps: seq<Settlement>) {
    forall i :: 0 <= i < |ps| ==> ps[i] != Pending
  }
}
