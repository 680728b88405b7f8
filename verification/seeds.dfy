/**
  The default datasets a collection is seeded with on first access, and the
  enumerations of the record types.

  The profile and delivery seeds are concrete. Their timestamps are taken at
  module load time, so they are parameters here. The location-history seed is
  built from random numbers and random ids, so it is an opaque value.
 */
module Seeds {
  import opened Js

  datatype UserRole = Admin | Driver
  datatype PodStatus = Pending | InTransit | Delivered
  datatype MoveType = Local | International

  /** How each enumeration is written into a document. */
  function RoleValue(r: UserRole): Value
  {
    match r
    case Admin => Str("admin")
    case Driver => Str("driver")
  }

  function StatusValue(s: PodStatus): Value
  {
    match s
    case Pending => Str("pending")
    case InTransit => Str("in_transit")
    case Delivered => Str("delivered")
  }

  function MoveTypeValue(m: MoveType): Value
  {
    match m
    case Local => Str("local")
    case International => Str("international")
  }

  /** The three seed datasets of one page load. */
  datatype Seeds = Seeds(profiles: seq<Doc>, pods: seq<Doc>, history: seq<Doc>)

  /** The collections the application uses. */
  const Profiles: string := "profiles"
  const Pods: string := "pods"
  const LocationHistory: string := "location_history"

  /** The seeded administrator. */
  function AdminProfile(): (p: Doc)
    ensures HasId(p, "admin_1") && Lookup(p, "role") == Some(RoleValue(Admin))
    ensures Lookup(p, "email") == Some(Str("admin@cargo.com")) && Lookup(p, "password") == Some(Str("demo123"))
  {
    map["$id" := Str("admin_1"), "name" := Str("Ops Manager"), "email" := Str("admin@cargo.com"),
        "password" := Str("demo123"), "role" := RoleValue(Admin), "isOnline" := Bool(true),
        "dutyStart" := Str("08:00"), "dutyEnd" := Str("18:00")]
  }

  /** The first seeded driver, on duty. */
  function RajeshProfile(loadedAt: string): (p: Doc)
    ensures HasId(p, "driver_1") && Lookup(p, "role") == Some(RoleValue(Driver))
    ensures Lookup(p, "email") == Some(Str("rajesh@cargo.com")) && Lookup(p, "password") == Some(Str("demo123"))
    ensures Lookup(p, "isOnline") == Some(Bool(true)) && Lookup(p, "lastUpdated") == Some(Str(loadedAt))
  {
    map["$id" := Str("driver_1"), "name" := Str("Rajesh Kumar"), "email" := Str("rajesh@cargo.com"),
        "password" := Str("demo123"), "role" := RoleValue(Driver), "isOnline" := Bool(true),
        "batteryLevel" := Num(88.0), "signalStrength" := Str("Excellent"),
        "dutyStart" := Str("09:00"), "dutyEnd" := Str("17:00"),
        "currentLat" := Num(28.6139), "currentLng" := Num(77.2090), "lastUpdated" := Str(loadedAt)]
  }

  /** The second seeded driver, off duty. */
  function AmitProfile(loadedAt: string): (p: Doc)
    ensures HasId(p, "driver_2") && Lookup(p, "role") == Some(RoleValue(Driver))
    ensures Lookup(p, "email") == Some(Str("amit@cargo.com")) && Lookup(p, "password") == Some(Str("demo123"))
    ensures Lookup(p, "isOnline") == Some(Bool(false)) && Lookup(p, "lastUpdated") == Some(Str(loadedAt))
  {
    map["$id" := Str("driver_2"), "name" := Str("Amit Singh"), "email" := Str("amit@cargo.com"),
        "password" := Str("demo123"), "role" := RoleValue(Driver), "isOnline" := Bool(false),
        "batteryLevel" := Num(45.0), "signalStrength" := Str("Weak"),
        "dutyStart" := Str("10:00"), "dutyEnd" := Str("19:00"),
        "currentLat" := Num(28.5355), "currentLng" := Num(77.3910), "lastUpdated" := Str(loadedAt)]
  }

  /** The three seeded profiles, administrator first; `loadedAt` stamps the
      drivers' last update. Every one has the password `demo123`. */
  function InitialProfiles(loadedAt: string): (r: seq<Doc>)
    ensures |r| == 3
    ensures HasId(r[0], "admin_1") && HasId(r[1], "driver_1") && HasId(r[2], "driver_2")
    ensures Lookup(r[0], "role") == Some(RoleValue(Admin))
    ensures forall i :: 1 <= i < |r| ==> Lookup(r[i], "role") == Some(RoleValue(Driver))
    ensures forall i :: 0 <= i < |r| ==> Lookup(r[i], "password") == Some(Str("demo123"))
  {
    var r := [AdminProfile(), RajeshProfile(loadedAt), AmitProfile(loadedAt)];
    assert r[0] == AdminProfile() && r[1] == RajeshProfile(loadedAt) && r[2] == AmitProfile(loadedAt);
    r
  }

  /** The one seeded delivery record, in transit with driver_1. */
  function InitialPods(createdAt: string): (r: seq<Doc>)
    ensures |r| == 1 && HasId(r[0], "pod_1")
    ensures Lookup(r[0], "driverId") == Some(Str("driver_1"))
    ensures Lookup(r[0], "status") == Some(StatusValue(InTransit))
    ensures Lookup(r[0], "createdAt") == Some(Str(createdAt))
    ensures forall k :: k in r[0] ==> k != "recipientName" && k != "signatureUrl" && k != "deliveredAt"
  {
    [ map["$id" := Str("pod_1"), "awbNumber" := Str("AWB-882910"), "moveType" := MoveTypeValue(Local),
          "pieces" := Num(4.0), "weight" := Num(120.5), "origin" := Str("Okhla Phase III, Delhi"),
          "destination" := Str("Sector 62, Noida"), "description" := Str("Fragile electronic parts"),
          "driverId" := Str("driver_1"), "driverName" := Str("Rajesh Kumar"),
          "status" := StatusValue(InTransit), "createdAt" := Str(createdAt)] ]
  }

  /** The seeds of a page load whose clock read `loadedAt` (and an hour
      earlier, `hourBefore`) and whose random history came out as `history`. */
  function PageSeeds(loadedAt: string, hourBefore: string, history: seq<Doc>): Seeds
  {
    Seeds(InitialProfiles(loadedAt), InitialPods(hourBefore), history)
  }

  /** The seed `listDocuments` uses: by collection name, `[]` for any other. */
  function ListSeed(seeds: Seeds, col: string): (r: seq<Doc>)
    ensures col == Profiles ==> r == seeds.profiles
    ensures col == Pods ==> r == seeds.pods
    ensures col == LocationHistory ==> r == seeds.history
    ensures col !in {Profiles, Pods, LocationHistory} ==> r == []
  {
    if col == Profiles then seeds.profiles
    else if col == Pods then seeds.pods
    else if col == LocationHistory then seeds.history
    else []
  }

  /** The seed `getDocument` uses: the profiles seed for `profiles`, `[]` for
      every other collection. */
  function GetSeed(seeds: Seeds, col: string): (r: seq<Doc>)
    ensures col == Profiles ==> r == seeds.profiles
    ensures col != Profiles ==> r == []
  {
    if col == Profiles then seeds.profiles else []
  }
}
