/**
  The query builders and the only part of a query list the store reads:
  the first query whose `key` is `driverId` and the first whose `key` is
  `role`, each used as an equality filter on its `value`.
 */
module Queries {
  import opened Js
  import opened ArrayOps

  /** `Query.equal(key, value)`, `Query.orderDesc(key)`, `Query.limit(val)`.
      An ordering query has a `key` but no `value`; a limit has neither. */
  datatype Query = Equal(key: string, value: Value) | OrderDesc(key: string) | Limit(val: int)

  /** `q.key`. */
  function KeyOf(q: Query): Option<string>
  {
    match q
    case Equal(k, _) => Some(k)
    case OrderDesc(k) => Some(k)
    case Limit(_) => None
  }

  /** `q.value`. */
  function Operand(q: Query): Option<Value>
  {
    match q
    case Equal(_, v) => Some(v)
    case _ => None
  }

  /** `queries.find(q => q.key === key)`. */
  function FindKeyed(queries: seq<Query>, key: string): Option<Query>
  {
    Find(queries, (q: Query) => KeyOf(q) == Some(key))
  }

  /** The query the store reads for `key` is the first one whose `key` field
      is `key`, and there is none exactly when no query has that key. */
  lemma FindKeyedFirst(queries: seq<Query>, key: string)
    ensures var r := FindKeyed(queries, key);
            && (r.None? <==> forall i :: 0 <= i < |queries| ==> KeyOf(queries[i]) != Some(key))
            && (r.Some? ==> exists i :: 0 <= i < |queries| && queries[i] == r.value && KeyOf(r.value) == Some(key) &&
                                        forall j :: 0 <= j < i ==> KeyOf(queries[j]) != Some(key))
  {
  }

  /** Whether document `d` survives the filter on `key`: with no query keyed
      `key` every document does; otherwise `d[key] === q.value` for the first
      such query `q` (an ordering query has no value, so it keeps exactly the
      documents that lack `key`). */
  predicate Passes(queries: seq<Query>, key: string, d: Doc)
  {
    match FindKeyed(queries, key)
    case None => true
    case Some(q) => Lookup(d, key) == Operand(q)
  }

  /** A document is listed when it passes both filters the store honours. */
  predicate Admits(queries: seq<Query>, d: Doc)
  {
    Passes(queries, "driverId", d) && Passes(queries, "role", d)
  }

  /** One filtering pass: `if (found) data = data.filter(d => d[key] === found.value)`. */
  function FilterOn(docs: seq<Doc>, queries: seq<Query>, key: string): (r: seq<Doc>)
    ensures r == Filter(docs, d => Passes(queries, key, d))
  {
    var found := FindKeyed(queries, key);
    if found.None? then
      FilterKeepsAll(docs, d => Passes(queries, key, d));
      docs
    else
      FilterCongruent(docs, d => Lookup(d, key) == Operand(found.value), d => Passes(queries, key, d));
      Filter(docs, d => Lookup(d, key) == Operand(found.value))
  }

  /** The driver filter, then the role filter. The result is the documents
      admitted by both, in their stored order. */
  function Evaluate(docs: seq<Doc>, queries: seq<Query>): (r: seq<Doc>)
    ensures r == Filter(docs, d => Admits(queries, d))
  {
    var once := FilterOn(docs, queries, "driverId");
    FilterFuse(docs, d => Passes(queries, "driverId", d), d => Passes(queries, "role", d),
               d => Admits(queries, d));
    FilterOn(once, queries, "role")
  }

  /** A query the store ignores: a limit, or one keyed on neither
      `driverId` nor `role`. */
  predicate Ignored(q: Query)
  {
    KeyOf(q) != Some("driverId") && KeyOf(q) != Some("role")
  }

  /** Inserting ignored queries anywhere in the list leaves the result
      unchanged. */
  lemma EvaluateIgnores(docs: seq<Doc>, a: seq<Query>, extra: seq<Query>, b: seq<Query>)
    requires forall i :: 0 <= i < |extra| ==> Ignored(extra[i])
    ensures Evaluate(docs, a + extra + b) == Evaluate(docs, a + b)
  {
    FindSkipsNonMatching(a, extra, b, (q: Query) => KeyOf(q) == Some("driverId"));
    FindSkipsNonMatching(a, extra, b, (q: Query) => KeyOf(q) == Some("role"));
    FilterCongruent(docs, d => Admits(a + extra + b, d), d => Admits(a + b, d));
  }

  /** With an equality query on `driverId` in front, every listed document
      carries that driver id. */
  lemma EvaluateByDriver(docs: seq<Doc>, driverId: string, rest: seq<Query>)
    ensures forall d :: d in Evaluate(docs, [Equal("driverId", Str(driverId))] + rest) ==>
              Lookup(d, "driverId") == Some(Str(driverId))
  {
    var qs := [Equal("driverId", Str(driverId))] + rest;
    FindIsFirst(qs, (q: Query) => KeyOf(q) == Some("driverId"), 0);
  }

  /** With an equality query on `driverId` first and no query keyed `role`,
      a document is listed exactly when it carries that driver id. */
  lemma AdmitsByDriver(driverId: string, rest: seq<Query>)
    requires forall i :: 0 <= i < |rest| ==> KeyOf(rest[i]) != Some("role")
    ensures forall d :: Admits([Equal("driverId", Str(driverId))] + rest, d) <==>
                        Lookup(d, "driverId") == Some(Str(driverId))
  {
    var qs := [Equal("driverId", Str(driverId))] + rest;
    FindIsFirst(qs, (q: Query) => KeyOf(q) == Some("driverId"), 0);
    assert FindKeyed(qs, "role").None?;
  }
}
