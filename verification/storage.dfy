/**
  The persistence substrate: the browser's string-keyed storage. Each
  collection lives under its own key as a list of documents; the current
  session lives apart, as one optional document. Serialisation through JSON
  is taken to be the identity.
 */
module Storage {
  import opened Js

  /** Everything the store persists. */
  datatype Store = Store(kv: map<string, seq<Doc>>, session: Option<Doc>)

  /** The result of a store operation together with the storage it leaves. */
  datatype Step<+T> = Step(out: T, after: Store)

  /** A store nothing has been written to yet. */
  const Empty: Store := Store(map[], None)

  /** The storage key of collection `col`: `cargo_${col}`. */
  function CollectionKey(col: string): (key: string)
    ensures |key| == |col| + 6 && key[6..] == col
  {
    "cargo_" + col
  }

  /** Distinct collections never share a storage key. */
  lemma CollectionKeyInjective(a: string, b: string)
    requires CollectionKey(a) == CollectionKey(b)
    ensures a == b
  {
    assert a == CollectionKey(a)[6..];
  }

  /** The documents of `col` as stored, once the collection has been touched. */
  function Current(st: Store, col: string): seq<Doc>
    requires CollectionKey(col) in st.kv
  {
    st.kv[CollectionKey(col)]
  }

  /** The documents of `col` as stored, or `[]` if the key is absent. */
  function StoredOrEmpty(st: Store, col: string): seq<Doc>
  {
    if CollectionKey(col) in st.kv then st.kv[CollectionKey(col)] else []
  }

  /** `getStorage(key, initial)`: reads the list under `key`; if the key is
      absent, first writes `initial` there. Returns the list and the storage
      after the call. */
  function GetStorage(kv: map<string, seq<Doc>>, key: string, initial: seq<Doc>)
    : (r: (seq<Doc>, map<string, seq<Doc>>))
    ensures key in r.1 && r.1[key] == r.0
    ensures r.1.Keys == kv.Keys + {key}
    ensures forall k :: k in kv && k != key ==> r.1[k] == kv[k]
    ensures key in kv ==> r.0 == kv[key] && r.1 == kv
    ensures key !in kv ==> r.0 == initial
  {
    if key in kv then (kv[key], kv) else (initial, kv[key := initial])
  }

  /** `setStorage(key, data)`: replaces the whole list under `key`. */
  function SetStorage(kv: map<string, seq<Doc>>, key: string, data: seq<Doc>)
    : (r: map<string, seq<Doc>>)
    ensures key in r && r[key] == data
    ensures r.Keys == kv.Keys + {key}
    ensures forall k :: k in kv && k != key ==> r[k] == kv[k]
  {
    kv[key := data]
  }

  /** Seeding happens at most once per key: a second read, whatever initial
      value it offers, returns what the first read returned and writes
      nothing. */
  lemma GetStorageSeedsOnce(kv: map<string, seq<Doc>>, key: string, first: seq<Doc>, second: seq<Doc>)
    ensures var (d1, kv1) := GetStorage(kv, key, first);
            GetStorage(kv1, key, second) == (d1, kv1)
  {
  }
}
