/** Shared value types of the server model: optional values, the errors a
    handler throws, and the JSON values that clients send. */
module Common {

  datatype Option<T> = None | Some(value: T) {
    function GetOr(default: T): T {
      match this
      case Some(v) => v
      case None => default
    }
  }

  /** What a request handler throws. `Http` is an error made by
      `createError(message, status)`; `SchemaRejected` is a zod parse failure,
      which the error middleware does not map to a status of its own;
      `Uncaught` is any other exception, named by its JavaScript error name
      and answered with status 500 as well. */
  datatype Failure = Http(status: int, message: string) | SchemaRejected | Uncaught(name: string)

  /** The result of a handler or a guard: a value, or the error it throws. */
  datatype Outcome<T> = Ok(value: T) | Err(failure: Failure)

  /** `createError(message, status)`. */
  function Fail<T>(status: int, message: string): Outcome<T> {
    Err(Http(status, message))
  }

  /** A JSON value as it arrives in a request body or a socket payload.
      Numbers are rationals: the model has no NaN, no infinities and no
      rounding. An object is its members in insertion order; JavaScript
      would list integer-like keys first, but no key read here is one. */
  datatype Json =
    | JNull
    | JBool(b: bool)
    | JNum(n: real)
    | JStr(s: string)
    | JArr(items: seq<Json>)
    | JObj(fields: seq<Field>)

  datatype Field = Field(key: string, value: Json)

  /** The keys of an object's members. */
  function Keys(fields: seq<Field>): (r: set<string>)
    ensures forall k :: k in r <==> exists i :: 0 <= i < |fields| && fields[i].key == k
  {
    if fields == [] then {}
    else Keys(fields[..|fields| - 1]) + {fields[|fields| - 1].key}
  }

  /** The value of the last member named `key`: when a JSON text repeats a
      key, the later member wins. */
  function Lookup(fields: seq<Field>, key: string): (r: Option<Json>)
    ensures r.Some? <==> key in Keys(fields)
    ensures r.Some? ==> Field(key, r.value) in fields
  {
    if fields == [] then None
    else if fields[|fields| - 1].key == key then Some(fields[|fields| - 1].value)
    else Lookup(fields[..|fields| - 1], key)
  }

  /** A key that occurs once is found at its one position. */
  lemma LookupUnique(fields: seq<Field>, i: nat, key: string)
    requires i < |fields| && fields[i].key == key
    requires forall j :: 0 <= j < |fields| && j != i ==> fields[j].key != key
    ensures Lookup(fields, key) == Some(fields[i].value)
  {
    if i < |fields| - 1 {
      LookupUnique(fields[..|fields| - 1], i, key);
    }
  }

  /** A key that occurs nowhere is not found. */
  lemma {:induction false} LookupAbsent(fields: seq<Field>, key: string)
    requires forall j :: 0 <= j < |fields| ==> fields[j].key != key
    ensures Lookup(fields, key) == None
  {
    if fields != [] {
      LookupAbsent(fields[..|fields| - 1], key);
    }
  }

  /** `obj[key]`: the member of an object, `None` when the key is absent
      (JavaScript's `undefined`) or the value is not an object. */
  function Member(j: Json, key: string): (r: Option<Json>)
    ensures r.Some? <==> j.JObj? && key in Keys(j.fields)
  {
    if j.JObj? then Lookup(j.fields, key) else None
  }

  /** JavaScript truthiness of a JSON value. */
  predicate Truthy(j: Json) {
    match j
    case JNull => false
    case JBool(b) => b
    case JNum(n) => n != 0.0
    case JStr(s) => s != ""
    case JArr(_) => true
    case JObj(_) => true
  }

  /** Truthiness of a possibly-undefined member. */
  predicate TruthyMember(j: Json, key: string) {
    var m := Member(j, key);
    m.Some? && Truthy(m.value)
  }

  /** The member as a number, when it is one. */
  function NumberMember(j: Json, key: string): (r: Option<real>)
    ensures r.Some? <==> Member(j, key).Some? && Member(j, key).value.JNum?
    ensures r.Some? ==> Member(j, key) == Some(JNum(r.value))
  {
    match Member(j, key)
    case Some(JNum(n)) => Some(n)
    case _ => None
  }

  /** The member as a string, when it is one. */
  function StringMember(j: Json, key: string): (r: Option<string>)
    ensures r.Some? <==> Member(j, key).Some? && Member(j, key).value.JStr?
    ensures r.Some? ==> Member(j, key) == Some(JStr(r.value))
  {
    match Member(j, key)
    case Some(JStr(s)) => Some(s)
    case _ => None
  }

  /** The member as a boolean, when it is one. */
  function BoolMember(j: Json, key: string): (r: Option<bool>)
    ensures r.Some? <==> Member(j, key).Some? && Member(j, key).value.JBool?
    ensures r.Some? ==> Member(j, key) == Some(JBool(r.value))
  {
    match Member(j, key)
    case Some(JBool(b)) => Some(b)
    case _ => None
  }
}
