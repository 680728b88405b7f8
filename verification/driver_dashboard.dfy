/**
  The driver console's use of the store: fetching the driver's own delivery
  records, switching duty on and off, and confirming a delivery.
 */
module DriverDashboard {
  import opened Js
  import opened ArrayOps
  import opened Storage
  import opened Seeds
  import opened Queries
  import opened Databases

  /** The console's state: the fetched records, the duty switch, the record
      picked for delivery, whether the signature pad is open, and the
      receipt on display. */
  datatype Console = Console(
    pods: seq<Doc>,
    isDutyOn: bool,
    selected: Option<Doc>,
    showSignature: bool,
    receipt: Option<Doc>)

  /** Whether a record is assigned to driver `userId`. */
  function AssignedTo(userId: string): Doc -> bool
  {
    d => Lookup(d, "driverId") == Some(Str(userId))
  }

  /** The queries `fetchPods` sends for driver `userId`: the store reads the
      driver filter from them and finds no role filter. */
  function PodQueries(userId: string): (qs: seq<Query>)
    ensures FindKeyed(qs, "driverId") == Some(Equal("driverId", Str(userId)))
    ensures FindKeyed(qs, "role").None?
  {
    [Equal("driverId", Str(userId)), OrderDesc("createdAt")]
  }

  /** `fetchPods`: the driver's own delivery records, in stored order. */
  function FetchPods(st: Store, seeds: Seeds, userId: string): (r: Step<seq<Doc>>)
    ensures SeededFrom(st, Pods, seeds.pods, r.after)
    ensures CollectionKey(Pods) in r.after.kv
    ensures r.out == Filter(Current(r.after, Pods), AssignedTo(userId))
    ensures forall i :: 0 <= i < |r.out| ==> Lookup(r.out[i], "driverId") == Some(Str(userId))
    ensures forall d :: d in r.out <==> d in Current(r.after, Pods) && Lookup(d, "driverId") == Some(Str(userId))
  {
    var listed := ListDocuments(st, seeds, Pods, PodQueries(userId));
    var stored := Current(listed.after, Pods);
    forall i | 0 <= i < |stored| ensures Admits(PodQueries(userId), stored[i]) == AssignedTo(userId)(stored[i]) {
    }
    FilterCongruent(stored, d => Admits(PodQueries(userId), d), AssignedTo(userId));
    FilterMembers(stored, AssignedTo(userId));
    Step(listed.out.documents, listed.after)
  }

  /** `toggleDuty`: flips the switch and writes the new value as the user's
      `isOnline`. The switch flips even when the update throws. */
  function ToggleDuty(c: Console, st: Store, userId: string): (r: (Console, Store))
    ensures r.0 == c.(isDutyOn := !c.isDutyOn)
    ensures r.1.session == st.session
    ensures CollectionKey(Profiles) in r.1.kv
    ensures r.1.kv.Keys == st.kv.Keys + {CollectionKey(Profiles)}
    ensures forall k :: k in st.kv && k != CollectionKey(Profiles) ==> r.1.kv[k] == st.kv[k]
    ensures IndexOfId(StoredOrEmpty(st, Profiles), userId) == -1 ==> SeededFrom(st, Profiles, [], r.1)
    ensures var profiles, i := StoredOrEmpty(st, Profiles), IndexOfId(StoredOrEmpty(st, Profiles), userId);
            i != -1 ==>
              && |Current(r.1, Profiles)| == |profiles|
              && Current(r.1, Profiles)[i].Keys == profiles[i].Keys + {"isOnline"}
              && Current(r.1, Profiles)[i]["isOnline"] == Bool(!c.isDutyOn)
              && (forall k :: k in profiles[i] && k != "isOnline" ==> Current(r.1, Profiles)[i][k] == profiles[i][k])
              && forall j :: 0 <= j < |profiles| && j != i ==> Current(r.1, Profiles)[j] == profiles[j]
  {
    var next := !c.isDutyOn;
    var updated := UpdateDocument(st, Profiles, userId, map["isOnline" := Bool(next)]);
    (c.(isDutyOn := next), updated.after)
  }

  /** A record whose `$id` is a string, as the `PODEntry` and `UserProfile`
      types declare. */
  predicate HasStringId(d: Doc)
  {
    "$id" in d && d["$id"].Str?
  }

  function IdOf(d: Doc): (id: string)
    requires HasStringId(d)
    ensures HasId(d, id)
  {
    d["$id"].s
  }

  /** The fields a confirmed delivery receives. */
  function DeliveryPatch(signatureUrl: string, recipient: string, now: string): (patch: Doc)
    ensures patch.Keys == {"status", "signatureUrl", "recipientName", "deliveredAt"}
    ensures patch["status"] == StatusValue(Delivered)
    ensures patch["signatureUrl"] == Str(signatureUrl)
    ensures patch["recipientName"] == Str(recipient)
    ensures patch["deliveredAt"] == Str(now)
  {
    map["status" := StatusValue(Delivered), "signatureUrl" := Str(signatureUrl),
        "recipientName" := Str(recipient), "deliveredAt" := Str(now)]
  }

  /** `handleDeliveryConfirm(sig, recipient)` for the driver `userId`, with
      `signatureUrl` the view URL of the uploaded signature and `now` the
      clock. Without a selection nothing happens. If the update throws, the
      console is left as it was and only the seeding write remains. */
  function HandleDeliveryConfirm(c: Console, st: Store, seeds: Seeds, userId: string,
                                 signatureUrl: string, recipient: string, now: string): (r: (Console, Store))
    requires c.selected.Some? ==> HasStringId(c.selected.value)
    ensures c.selected.None? ==> r == (c, st)
    ensures r.1.session == st.session
    ensures c.selected.Some? ==> CollectionKey(Pods) in r.1.kv
    ensures c.selected.Some? ==>
              var sel, patch := c.selected.value, DeliveryPatch(signatureUrl, recipient, now);
              var stored := StoredOrEmpty(st, Pods);
              if forall i :: 0 <= i < |stored| ==> !HasId(stored[i], IdOf(sel)) then
                r.0 == c && SeededFrom(st, Pods, [], r.1)
              else
                && r.0.selected.None?
                && !r.0.showSignature
                && r.0.isDutyOn == c.isDutyOn
                && r.0.receipt == Some(Spread(sel, patch))
                && |Current(r.1, Pods)| == |stored|
                && (var i := IndexOfId(stored, IdOf(sel));
                    && Current(r.1, Pods)[i] == Spread(stored[i], patch)
                    && (stored[i] == sel ==> r.0.receipt == Some(Current(r.1, Pods)[i]))
                    && forall j :: 0 <= j < |stored| && j != i ==> Current(r.1, Pods)[j] == stored[j])
                && r.0.pods == Filter(Current(r.1, Pods), AssignedTo(userId))
                && r.1.kv.Keys == st.kv.Keys
                && (forall k :: k in st.kv && k != CollectionKey(Pods) ==> r.1.kv[k] == st.kv[k])
  {
    match c.selected
    case None => (c, st)
    case Some(sel) =>
      var patch := DeliveryPatch(signatureUrl, recipient, now);
      var updated := UpdateDocument(st, Pods, IdOf(sel), patch);
      if updated.out.Err? then
        (c, updated.after)
      else
        var fetched := FetchPods(updated.after, seeds, userId);
        (c.(pods := fetched.out, showSignature := false, selected := None,
            receipt := Some(Spread(sel, patch))),
         fetched.after)
  }

  /** Whether a record shows as delivered: `p.status === 'delivered'`. */
  predicate IsDelivered(p: Doc)
  {
    Lookup(p, "status") == Some(StatusValue(Delivered))
  }

  /** The mission stream: records not yet delivered. */
  function ActivePods(pods: seq<Doc>): (r: seq<Doc>)
    ensures |r| <= |pods|
    ensures forall p :: p in r <==> p in pods && !IsDelivered(p)
  {
    FilterMembers(pods, p => !IsDelivered(p));
    Filter(pods, p => !IsDelivered(p))
  }

  /** The registry log: delivered records. */
  function RegistryPods(pods: seq<Doc>): (r: seq<Doc>)
    ensures |r| <= |pods|
    ensures forall p :: p in r <==> p in pods && IsDelivered(p)
  {
    FilterMembers(pods, IsDelivered);
    Filter(pods, IsDelivered)
  }

  /** The stream and the registry split the fetched records: every record is
      in exactly one of them, and together they hold each record as often as
      the fetched list does. */
  lemma StreamAndRegistryPartition(pods: seq<Doc>)
    ensures multiset(ActivePods(pods)) + multiset(RegistryPods(pods)) == multiset(pods)
    ensures |ActivePods(pods)| + |RegistryPods(pods)| == |pods|
    ensures forall p :: p in pods ==> (p in RegistryPods(pods) <==> IsDelivered(p)) &&
                                      (p in ActivePods(pods) <==> !IsDelivered(p))
  {
    FilterPartition(pods, IsDelivered, p => !IsDelivered(p));
    FilterPartitionSize(pods, IsDelivered, p => !IsDelivered(p));
    FilterMembers(pods, IsDelivered);
    FilterMembers(pods, p => !IsDelivered(p));
  }
}
