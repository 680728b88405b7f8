/**
  The JavaScript values the store keeps in its documents, and the values it
  throws. A document is a schemaless record; a key it does not hold reads as
  `undefined`, which is `None` here.
 */
module Js {

  /** `None` plays JavaScript's `undefined`. */
  datatype Option<+T> = None | Some(value: T)

  /** The scalar values that occur in documents, query operands and patches. */
  datatype Value = Str(s: string) | Num(n: real) | Bool(b: bool)

  /** A document (or a patch, or a form record): field name to value. */
  type Doc = map<string, Value>

  /** What a thrown value carries: `{ code: 404 }` has a code and no message,
      `new Error('Not found')` has a message and no code. */
  datatype Thrown = Thrown(code: Option<int>, message: Option<string>)

  /** The outcome of a call that may throw. */
  datatype Result<+T> = Ok(value: T) | Err(error: Thrown)

  /** `d[k]`, with `undefined` for a missing field. */
  function Lookup(d: Doc, k: string): (r: Option<Value>)
    ensures r.Some? <==> k in d
    ensures r.Some? ==> d[k] == r.value
  {
    if k in d then Some(d[k]) else None
  }

  /** JavaScript truthiness of a defined scalar (NaN is not modelled). */
  predicate Truthy(v: Value)
  {
    match v
    case Str(s) => s != ""
    case Num(n) => n != 0.0
    case Bool(b) => b
  }

  /** `d.$id === id` for a string `id`. */
  predicate HasId(d: Doc, id: string)
  {
    Lookup(d, "$id") == Some(Str(id))
  }

  /** `{ ...base, ...patch }`: keys of `patch` overwrite, every other key of `base` stays. */
  function Spread(base: Doc, patch: Doc): (r: Doc)
    ensures r.Keys == base.Keys + patch.Keys
    ensures forall k :: k in patch ==> r[k] == patch[k]
    ensures forall k :: k in base && k !in patch ==> r[k] == base[k]
  {
    base + patch
  }
}
