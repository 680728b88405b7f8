/**
  How the screens' store calls combine: a delivery record's life from the
  dispatch form to the driver's confirmation, the login and logout cycle,
  the queries the admin console sends, and the seeding order effects.
 */
module Scenarios {
  import opened Js
  import opened ArrayOps
  import opened Storage
  import opened Seeds
  import opened Queries
  import opened Databases
  import opened Account
  import opened PodModal
  import opened DriverDashboard

  /** A record created through the dispatch form with a generated id is
      pending, has no delivery fields, carries the generated id, and heads
      the stored list. */
  lemma PodCreatedPending(st: Store, f: PodForm, drivers: seq<Doc>, createdAt: string, freshId: string)
    ensures var created := CreateDocument(st, Pods, GenerateId, HandleSubmit(f, drivers, createdAt), freshId);
            var pod := created.out;
            && HasId(pod, freshId)
            && pod["status"] == StatusValue(Pending)
            && (forall k :: k in DeliveryKeys ==> k !in pod)
            && StoredOrEmpty(created.after, Pods)[0] == pod
  {
  }

  /** Confirming a record that is stored as the first with its id overlays
      the delivery patch on that stored entry, and the receipt shows it. */
  lemma ConfirmOverlaysStored(c: Console, st: Store, seeds: Seeds, userId: string,
                              signatureUrl: string, recipient: string, now: string, pod: Doc, i: int)
    requires HasStringId(pod)
    requires IndexOfId(StoredOrEmpty(st, Pods), IdOf(pod)) == i != -1
    requires StoredOrEmpty(st, Pods)[i] == pod
    ensures var confirmed := HandleDeliveryConfirm(c.(selected := Some(pod)), st, seeds, userId,
                                                   signatureUrl, recipient, now);
            && |Current(confirmed.1, Pods)| == |StoredOrEmpty(st, Pods)|
            && Current(confirmed.1, Pods)[i] == Spread(pod, DeliveryPatch(signatureUrl, recipient, now))
            && HasId(Current(confirmed.1, Pods)[i], IdOf(pod))
            && confirmed.0.receipt == Some(Current(confirmed.1, Pods)[i])
  {
    assert HasId(StoredOrEmpty(st, Pods)[i], IdOf(pod));
    assert "$id" !in DeliveryPatch(signatureUrl, recipient, now);
  }

  /** Confirming a selected record that is stored as the first with its id:
      the stored record becomes delivered with recipient, signature and
      delivery time, every other field of it is unchanged, the rest of the
      list is untouched, and the receipt shows the stored record. */
  lemma ConfirmStoredRecord(c: Console, st: Store, seeds: Seeds, userId: string,
                            signatureUrl: string, recipient: string, now: string, pod: Doc, i: int)
    requires HasStringId(pod)
    requires IndexOfId(StoredOrEmpty(st, Pods), IdOf(pod)) == i != -1
    requires StoredOrEmpty(st, Pods)[i] == pod
    ensures var confirmed := HandleDeliveryConfirm(c.(selected := Some(pod)), st, seeds, userId,
                                                   signatureUrl, recipient, now);
            var before, stored := StoredOrEmpty(st, Pods), Current(confirmed.1, Pods);
            && |stored| == |before|
            && stored[i] == Spread(pod, DeliveryPatch(signatureUrl, recipient, now))
            && stored[i].Keys == pod.Keys + DeliveryKeys + {"status"}
            && stored[i]["status"] == StatusValue(Delivered)
            && stored[i]["recipientName"] == Str(recipient)
            && stored[i]["signatureUrl"] == Str(signatureUrl)
            && stored[i]["deliveredAt"] == Str(now)
            && (forall k :: k in pod && k !in DeliveryKeys && k != "status" ==> stored[i][k] == pod[k])
            && (forall j :: 0 <= j < |stored| && j != i ==> stored[j] == before[j])
            && confirmed.0.receipt == Some(stored[i])
            && confirmed.0.selected.None?
  {
    var patch := DeliveryPatch(signatureUrl, recipient, now);
    assert patch.Keys == DeliveryKeys + {"status"};
    ConfirmOverlaysStored(c, st, seeds, userId, signatureUrl, recipient, now, pod, i);
  }

  /** A record without an `$id`, created under a generated id, is stored
      first with that id as a string. */
  lemma CreatedPodIsFirst(st: Store, record: Doc, freshId: string)
    requires "$id" !in record
    ensures var created := CreateDocument(st, Pods, GenerateId, record, freshId);
            && HasStringId(created.out) && IdOf(created.out) == freshId
            && StoredOrEmpty(created.after, Pods)[0] == created.out
            && IndexOfId(StoredOrEmpty(created.after, Pods), freshId) == 0
  {
    var created := CreateDocument(st, Pods, GenerateId, record, freshId);
    assert HasId(created.out, freshId);
    CreatedIsFirstWithId(st, Pods, GenerateId, record, freshId, freshId);
  }

  /** Creating a record without an `$id` under a generated id and then
      confirming it: the stored head is the record overlaid with the
      delivery patch, and the receipt equals it. */
  lemma CreateThenConfirm(st: Store, seeds: Seeds, record: Doc, freshId: string, c: Console,
                          userId: string, signatureUrl: string, recipient: string, now: string)
    requires "$id" !in record
    ensures var created := CreateDocument(st, Pods, GenerateId, record, freshId);
            var confirmed := HandleDeliveryConfirm(c.(selected := Some(created.out)), created.after, seeds,
                                                   userId, signatureUrl, recipient, now);
            var head := Current(confirmed.1, Pods)[0];
            && head == Spread(created.out, DeliveryPatch(signatureUrl, recipient, now))
            && HasId(head, freshId)
            && confirmed.0.receipt == Some(head)
  {
    var created := CreateDocument(st, Pods, GenerateId, record, freshId);
    CreatedPodIsFirst(st, record, freshId);
    ConfirmOverlaysStored(c, created.after, seeds, userId, signatureUrl, recipient, now, created.out, 0);
  }

  /** The whole life of a record: created pending through the dispatch form,
      then confirmed by the driver. Afterwards it is delivered and every
      field the form wrote, except the status, is as the form wrote it. */
  lemma PodLifecycle(st: Store, seeds: Seeds, f: PodForm, drivers: seq<Doc>, createdAt: string,
                     freshId: string, c: Console, userId: string,
                     signatureUrl: string, recipient: string, deliveredAt: string)
    ensures var record := HandleSubmit(f, drivers, createdAt);
            var created := CreateDocument(st, Pods, GenerateId, record, freshId);
            var confirmed := HandleDeliveryConfirm(c.(selected := Some(created.out)), created.after, seeds,
                                                   userId, signatureUrl, recipient, deliveredAt);
            var head := Current(confirmed.1, Pods)[0];
            && head["status"] == StatusValue(Delivered)
            && head["recipientName"] == Str(recipient)
            && head["signatureUrl"] == Str(signatureUrl)
            && head["deliveredAt"] == Str(deliveredAt)
            && HasId(head, freshId)
            && (forall k :: k in record && k != "status" ==> head[k] == record[k])
            && confirmed.0.receipt == Some(head)
  {
    var record := HandleSubmit(f, drivers, createdAt);
    CreateThenConfirm(st, seeds, record, freshId, c, userId, signatureUrl, recipient, deliveredAt);
    var pod := NewDocument(GenerateId, record, freshId);
    var patch := DeliveryPatch(signatureUrl, recipient, deliveredAt);
    var head := Spread(pod, patch);
    forall k | k in record && k != "status" ensures head[k] == record[k] {
      assert k !in patch;
    }
  }

  /** Logging in with matching credentials makes `account.get` return the
      matched profile; logging out then makes it fail with 401. */
  lemma SessionLifecycle(st: Store, seeds: Seeds, email: string, password: string)
    requires CreateEmailPasswordSession(st, seeds, email, password).out.Ok?
    ensures var login := CreateEmailPasswordSession(st, seeds, email, password);
            && Get(login.after) == Ok(login.out.value)
            && Get(DeleteSession(login.after, "current")) == Err(NoSession)
  {
  }

  /** The demo credentials of the seeded profiles: every profile has the
      password `demo123`, and the admin's email is `admin@cargo.com`. */
  lemma SeededCredentials(loadedAt: string)
    ensures var profiles := InitialProfiles(loadedAt);
            && Matches(profiles[0], "admin@cargo.com", "demo123")
            && forall i :: 0 <= i < |profiles| ==> Lookup(profiles[i], "password") == Some(Str("demo123"))
  {
  }

  /** On a never-used store the demo admin logs in with the demo password,
      which seeds the profiles, and becomes the session. */
  lemma DemoAdminLogin(loadedAt: string, hourBefore: string, history: seq<Doc>)
    ensures var seeds := PageSeeds(loadedAt, hourBefore, history);
            var login := CreateEmailPasswordSession(Empty, seeds, "admin@cargo.com", "demo123");
            && login.out == Ok(InitialProfiles(loadedAt)[0])
            && login.after == Store(map[CollectionKey(Profiles) := InitialProfiles(loadedAt)],
                                    Some(InitialProfiles(loadedAt)[0]))
  {
    var seeds := PageSeeds(loadedAt, hourBefore, history);
    var profiles := InitialProfiles(loadedAt);
    SeededCredentials(loadedAt);
    FindIsFirst(profiles, p => Matches(p, "admin@cargo.com", "demo123"), 0);
  }

  /** A wrong password is refused and leaves no session, though the profiles
      are seeded all the same. */
  lemma DemoWrongPassword(loadedAt: string, hourBefore: string, history: seq<Doc>)
    ensures var seeds := PageSeeds(loadedAt, hourBefore, history);
            var login := CreateEmailPasswordSession(Empty, seeds, "admin@cargo.com", "wrong");
            && login.out == Err(InvalidCredentials)
            && login.after == Store(map[CollectionKey(Profiles) := InitialProfiles(loadedAt)], None)
  {
    var profiles := InitialProfiles(loadedAt);
    SeededCredentials(loadedAt);
    forall i | 0 <= i < |profiles| ensures !Matches(profiles[i], "admin@cargo.com", "wrong") {
      assert Lookup(profiles[i], "password") == Some(Str("demo123"));
    }
  }

  /** After a login whose profile has a string id, the login page's lookup of
      that id in `profiles` succeeds, so its logout-on-missing-profile branch
      is not taken. */
  lemma LoginProfileLookup(st: Store, seeds: Seeds, email: string, password: string)
    requires var login := CreateEmailPasswordSession(st, seeds, email, password);
             login.out.Ok? && HasStringId(login.out.value)
    ensures var login := CreateEmailPasswordSession(st, seeds, email, password);
            var lookup := GetDocument(login.after, seeds, Profiles, IdOf(login.out.value));
            lookup.out.Ok? && HasId(lookup.out.value, IdOf(login.out.value)) && lookup.after == login.after
  {
    var login := CreateEmailPasswordSession(st, seeds, email, password);
    var profiles := Current(login.after, Profiles);
    var i :| 0 <= i < |profiles| && profiles[i] == login.out.value;
    assert HasId(profiles[i], IdOf(login.out.value));
  }

  /** The session is a snapshot: switching duty changes the stored profile
      but not what `account.get` returns. */
  lemma SessionSnapshotIsStale(st: Store, seeds: Seeds, email: string, password: string, c: Console)
    requires var login := CreateEmailPasswordSession(st, seeds, email, password);
             login.out.Ok? && HasStringId(login.out.value)
    ensures var login := CreateEmailPasswordSession(st, seeds, email, password);
            var user := login.out.value;
            var toggled := ToggleDuty(c, login.after, IdOf(user));
            && Get(toggled.1) == Ok(user)
            && Current(toggled.1, Profiles)[IndexOfId(Current(login.after, Profiles), IdOf(user))]["isOnline"]
               == Bool(!c.isDutyOn)
  {
    var login := CreateEmailPasswordSession(st, seeds, email, password);
    var profiles := Current(login.after, Profiles);
    var i :| 0 <= i < |profiles| && profiles[i] == login.out.value;
    assert HasId(profiles[i], IdOf(login.out.value));
    assert StoredOrEmpty(login.after, Profiles) == profiles;
  }

  /** The admin console's history query lists the same as the bare driver
      filter: the ordering and the limit of 50 are ignored. */
  lemma AdminHistoryQuery(st: Store, seeds: Seeds, driverId: string)
    ensures ListDocuments(st, seeds, LocationHistory,
                          [Equal("driverId", Str(driverId)), OrderDesc("timestamp"), Limit(50)])
         == ListDocuments(st, seeds, LocationHistory, [Equal("driverId", Str(driverId))])
  {
    var a, extra, none := [Equal("driverId", Str(driverId))], [OrderDesc("timestamp"), Limit(50)], [];
    assert Ignored(extra[0]) && Ignored(extra[1]);
    assert a + extra + none == [Equal("driverId", Str(driverId)), OrderDesc("timestamp"), Limit(50)];
    assert a + none == a;
    ListIgnoresOrderAndLimit(st, seeds, LocationHistory, a, extra, none);
  }

  /** The admin console's delivery list ignores its ordering: it lists every
      stored record in stored order. */
  lemma AdminPodsQuery(st: Store, seeds: Seeds)
    ensures var listed := ListDocuments(st, seeds, Pods, [OrderDesc("createdAt")]);
            listed.out.documents == Current(listed.after, Pods)
  {
    var listed := ListDocuments(st, seeds, Pods, [OrderDesc("createdAt")]);
    assert FindKeyed([OrderDesc("createdAt")], "driverId").None?;
    assert FindKeyed([OrderDesc("createdAt")], "role").None?;
    FilterKeepsAll(Current(listed.after, Pods), d => Admits([OrderDesc("createdAt")], d));
  }

  /** Ordering on `driverId` is read as a driver filter with no value: it
      keeps only the documents that lack a `driverId`. */
  lemma OrderDescOnDriverIdFilters(st: Store, seeds: Seeds, col: string)
    ensures var listed := ListDocuments(st, seeds, col, [OrderDesc("driverId")]);
            forall d :: d in listed.out.documents <==> d in Current(listed.after, col) && "driverId" !in d
  {
    var listed := ListDocuments(st, seeds, col, [OrderDesc("driverId")]);
    FilterMembers(Current(listed.after, col), d => Admits([OrderDesc("driverId")], d));
  }

  /** Seeding depends on which call touches a collection first. On a fresh
      store, looking up the seeded delivery record fails and persists an
      empty list, after which listing no longer shows the seed; while
      listing first would have shown it. */
  lemma GetBeforeListLosesSeed(loadedAt: string, hourBefore: string, history: seq<Doc>)
    ensures var seeds := PageSeeds(loadedAt, hourBefore, history);
            ListDocuments(Empty, seeds, Pods, []).out.documents == InitialPods(hourBefore)
    ensures var seeds := PageSeeds(loadedAt, hourBefore, history);
            var lookup := GetDocument(Empty, seeds, Pods, "pod_1");
            && lookup.out == Err(NotFound)
            && ListDocuments(lookup.after, seeds, Pods, []).out.documents == []
  {
    var seeds := PageSeeds(loadedAt, hourBefore, history);
    FilterKeepsAll(InitialPods(hourBefore), d => Admits([], d));
  }

  /** Creating into a fresh collection seeds it with `[]`, so the new
      document is the only one listed afterwards. */
  lemma CreateBeforeListLosesSeed(seeds: Seeds, data: Doc, freshId: string)
    ensures var created := CreateDocument(Empty, Pods, GenerateId, data, freshId);
            ListDocuments(created.after, seeds, Pods, []).out.documents == [created.out]
  {
    var created := CreateDocument(Empty, Pods, GenerateId, data, freshId);
    FilterKeepsAll([created.out], d => Admits([], d));
  }
}
