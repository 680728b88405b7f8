/**
  `account`: the single-slot session. Logging in matches email and password
  against the stored profiles and keeps a full copy of the matching profile,
  password included, as the session.
 */
module Account {
  import opened Js
  import opened ArrayOps
  import opened Storage
  import opened Seeds

  /** `{ code: 401, message: 'No session' }`, thrown by `account.get`. */
  const NoSession: Thrown := Thrown(Some(401), Some("No session"))

  /** `new Error('Invalid email or password.')`. */
  const InvalidCredentials: Thrown := Thrown(None, Some("Invalid email or password."))

  /** `p.email === email && p.password === password`: strict equality on
      both fields, so a profile that lacks either never matches. */
  predicate Matches(p: Doc, email: string, password: string)
    ensures Matches(p, email, password) <==>
              "email" in p && "password" in p && p["email"] == Str(email) && p["password"] == Str(password)
  {
    Lookup(p, "email") == Some(Str(email)) && Lookup(p, "password") == Some(Str(password))
  }

  /** `account.get()`: the stored session snapshot, or 401. */
  function Get(st: Store): (r: Result<Doc>)
    ensures r.Err? <==> st.session.None?
    ensures r.Err? ==> r.error == NoSession && r.error.code == Some(401)
    ensures r.Ok? ==> st.session == Some(r.value)
  {
    match st.session
    case None => Err(NoSession)
    case Some(user) => Ok(user)
  }

  /** `account.createEmailPasswordSession(email, password)`. The profiles are
      read through `getStorage`, so a first login seeds them. */
  function CreateEmailPasswordSession(st: Store, seeds: Seeds, email: string, password: string)
    : (r: Step<Result<Doc>>)
    ensures CollectionKey(Profiles) in r.after.kv
    ensures CollectionKey(Profiles) in st.kv ==> r.after.kv == st.kv
    ensures CollectionKey(Profiles) !in st.kv ==>
              r.after.kv == st.kv[CollectionKey(Profiles) := seeds.profiles]
    ensures var profiles := Current(r.after, Profiles);
            r.out.Ok? <==> exists i :: 0 <= i < |profiles| && Matches(profiles[i], email, password)
    ensures var profiles := Current(r.after, Profiles);
            r.out.Ok? ==> r.after.session == Some(r.out.value) &&
                          exists i :: 0 <= i < |profiles| && profiles[i] == r.out.value &&
                                      Matches(profiles[i], email, password) &&
                                      forall j :: 0 <= j < i ==> !Matches(profiles[j], email, password)
    ensures r.out.Err? ==> r.out.error == InvalidCredentials && r.after.session == st.session
  {
    var (profiles, kv) := GetStorage(st.kv, CollectionKey(Profiles), seeds.profiles);
    var index := FindIndex(profiles, p => Matches(p, email, password));
    assert profiles == Current(st.(kv := kv), Profiles);
    if index == -1 then
      Step(Err(InvalidCredentials), st.(kv := kv))
    else
      var user := profiles[index];
      Step(Ok(user), Store(kv, Some(user)))
  }

  /** `account.deleteSession(id)`: clears the session whatever `id` is. */
  function DeleteSession(st: Store, id: string): (r: Store)
    ensures r.session.None?
    ensures r.kv == st.kv
    ensures Get(r).Err?
  {
    st.(session := None)
  }

  /** Logging out twice is logging out once. */
  lemma DeleteSessionIdempotent(st: Store, id1: string, id2: string)
    ensures DeleteSession(DeleteSession(st, id1), id2) == DeleteSession(st, id1)
  {
  }
}
