/**
  The dispatch form for a new delivery record: its initial contents and the
  record it submits.
 */
module PodModal {
  import opened Js
  import opened ArrayOps
  import opened Seeds
  import Decimal

  /** `formData`. `pieces` comes from `parseInt` and `weight` from
      `parseFloat`; a value that does not parse is not modelled. */
  datatype PodForm = PodForm(
    awbNumber: string,
    moveType: MoveType,
    pieces: int,
    weight: real,
    origin: string,
    destination: string,
    description: string,
    driverId: string)

  /** The field names of the form. */
  const FormKeys: set<string> :=
    {"awbNumber", "moveType", "pieces", "weight", "origin", "destination", "description", "driverId"}

  /** The fields a delivery confirmation adds; a new record has none of them. */
  const DeliveryKeys: set<string> := {"recipientName", "signatureUrl", "deliveredAt"}

  /** The form when the dialog opens. `random` is the draw of `Math.random()`. */
  function InitialForm(random: real): (f: PodForm)
    requires 0.0 <= random < 1.0
    ensures |f.awbNumber| == 10 && f.awbNumber[..4] == "AWB-"
    ensures Decimal.AllDigits(f.awbNumber[4..]) && f.awbNumber[4] != '0'
    ensures 100000 <= Decimal.Parse(f.awbNumber[4..]) <= 999999
    ensures f.moveType == Local && f.pieces == 1 && f.weight == 10.0
    ensures f.origin == "" && f.destination == "" && f.description == "" && f.driverId == ""
  {
    var n := (random * 900000.0).Floor + 100000;
    Decimal.ParseRender(n);
    Decimal.SixDigits(n);
    var digits := Decimal.Render(n);
    assert ("AWB-" + digits)[4..] == digits;
    PodForm("AWB-" + digits, Local, 1, 10.0, "", "", "", "")
  }

  /** The move type a value names, if it names one. */
  function MoveTypeOf(v: Value): (m: Option<MoveType>)
    ensures forall t: MoveType :: v == MoveTypeValue(t) <==> m == Some(t)
  {
    if v == Str("local") then Some(Local)
    else if v == Str("international") then Some(International)
    else None
  }

  /** Reads a form back from a record, each field from its own name: `None`
      when a field is missing or holds the wrong kind of value (a non-integral
      piece count among them). */
  function FormOf(r: Doc): Option<PodForm>
  {
    if && FormKeys <= r.Keys
       && r["awbNumber"].Str? && MoveTypeOf(r["moveType"]).Some?
       && r["pieces"].Num? && r["pieces"].n == r["pieces"].n.Floor as real
       && r["weight"].Num? && r["origin"].Str? && r["destination"].Str?
       && r["description"].Str? && r["driverId"].Str?
    then
      Some(PodForm(r["awbNumber"].s, MoveTypeOf(r["moveType"]).value, r["pieces"].n.Floor,
                   r["weight"].n, r["origin"].s, r["destination"].s, r["description"].s,
                   r["driverId"].s))
    else
      None
  }

  /** `FormOf` reads nothing but the form's fields. */
  lemma FormOfReadsFormKeys(a: Doc, b: Doc)
    requires FormKeys <= a.Keys && FormKeys <= b.Keys
    requires forall k :: k in FormKeys ==> a[k] == b[k]
    ensures FormOf(a) == FormOf(b)
  {
    assert a["awbNumber"] == b["awbNumber"] && a["moveType"] == b["moveType"];
    assert a["pieces"] == b["pieces"] && a["weight"] == b["weight"];
    assert a["origin"] == b["origin"] && a["destination"] == b["destination"];
    assert a["description"] == b["description"] && a["driverId"] == b["driverId"];
  }

  /** The form as a record, each field under its own name: the record has
      exactly the form's fields and reads back as the form. */
  function FormRecord(f: PodForm): (r: Doc)
    ensures r.Keys == FormKeys
    ensures FormOf(r) == Some(f)
  {
    map["awbNumber" := Str(f.awbNumber), "moveType" := MoveTypeValue(f.moveType),
        "pieces" := Num(f.pieces as real), "weight" := Num(f.weight),
        "origin" := Str(f.origin), "destination" := Str(f.destination),
        "description" := Str(f.description), "driverId" := Str(f.driverId)]
  }

  /** `selectedDriver?.name || 'Unassigned'`, where `selectedDriver` is the
      first driver whose `$id` is `driverId`. A driver whose name is missing
      or falsy also yields `'Unassigned'`. */
  function DriverName(drivers: seq<Doc>, driverId: string): (r: Value)
    ensures (forall i :: 0 <= i < |drivers| ==> !HasId(drivers[i], driverId)) ==> r == Str("Unassigned")
    ensures forall i :: 0 <= i < |drivers| && HasId(drivers[i], driverId) &&
                        (forall j :: 0 <= j < i ==> !HasId(drivers[j], driverId)) ==>
                          r == (if "name" in drivers[i] && Truthy(drivers[i]["name"])
                                then drivers[i]["name"] else Str("Unassigned"))
  {
    var selected := Find(drivers, d => HasId(d, driverId));
    if selected.Some? && "name" in selected.value && Truthy(selected.value["name"]) then
      selected.value["name"]
    else
      Str("Unassigned")
  }

  /** The keys `handleSubmit` adds are new to the form, and neither the form
      nor they include `$id` or a delivery key. */
  lemma SubmitKeysFresh()
    ensures FormKeys !! {"driverName", "status", "createdAt"}
    ensures "$id" !in FormKeys + {"driverName", "status", "createdAt"}
    ensures DeliveryKeys !! FormKeys + {"driverName", "status", "createdAt"}
  {
  }

  /** `handleSubmit`: the form, the driver's name, status `pending` and the
      creation time `now`. */
  function HandleSubmit(f: PodForm, drivers: seq<Doc>, now: string): (r: Doc)
    ensures r.Keys == FormKeys + {"driverName", "status", "createdAt"}
    ensures forall k :: k in FormKeys ==> r[k] == FormRecord(f)[k]
    ensures FormOf(r) == Some(f)
    ensures r["status"] == StatusValue(Pending)
    ensures r["createdAt"] == Str(now)
    ensures r["driverName"] == DriverName(drivers, f.driverId)
    ensures "$id" !in r
    ensures forall k :: k in DeliveryKeys ==> k !in r
  {
    var extra := map["driverName" := DriverName(drivers, f.driverId),
                     "status" := StatusValue(Pending),
                     "createdAt" := Str(now)];
    assert extra.Keys == {"driverName", "status", "createdAt"};
    SubmitKeysFresh();
    var r := Spread(FormRecord(f), extra);
    FormOfReadsFormKeys(r, FormRecord(f));
    r
  }
}
