/**
 * The mock resource generator of js/data.js. Math.random is replaced by a
 * supplied sequence of draws, one record per generated resource, each field
 * already reduced to the integer range the source's Math.floor(Math.random() * k)
 * yields.
 */
module Data {
  import opened Wrappers
  import opened Text

  /** A latitude/longitude pair in decimal degrees. */
  datatype Coord = Coord(lat: real, lng: real)

  datatype Status = Available | Critical

  datatype Meta = Meta(beds: nat, phone: string, status: Status)

  /** One resource record; `distance` holds whole tenths of a kilometre. */
  datatype Resource = Resource(
    id: nat,
    name: string,
    rtype: string,
    lat: real,
    lng: real,
    distance: nat,
    meta: Meta)

  /** The planar offset that randomGeo derives from its two uniform samples (already divided by cos of the centre latitude). */
  datatype Offset = Offset(dLat: real, dLng: real)

  /** The random values one iteration of the generator consumes, in the order it consumes them. */
  datatype Draw = Draw(typeIx: nat, nameIx: nat, offset: Offset, beds: nat, suffix: nat, phoneSuffix: nat)

  const Count: nat := 15
  const BedsBound: nat := 20
  const SuffixBound: nat := 100
  const PhoneBound: nat := 99
  const PhonePrefix: string := "+1 555-01"

  const Hospital: string := "hospital"
  const Ambulance: string := "ambulance"
  const BloodBank: string := "blood_bank"
  const Shelter: string := "shelter"

  /** Object.keys(NAMES), in declaration order. */
  const TypeKeys: seq<string> := [Hospital, Ambulance, BloodBank, Shelter]

  const Names: map<string, seq<string>> := map[
    Hospital := ["City General Hospital", "Emergency Care Center", "St. Mary's Medical", "Hope Valley Clinic", "Trauma Center North"],
    Ambulance := ["Rapid Response Unit #42", "City EMS", "LifeSave Ambulance", "ParaMed Unit 09"],
    BloodBank := ["Red Cross Center", "City Blood Bank", "LifeStream Donation"],
    Shelter := ["Community Safe House", "Downtown Relief Center", "St. John's Shelter"]
  ]

  lemma TypeKeysAreNameKeys()
    ensures forall t :: t in TypeKeys <==> t in Names
    ensures forall i, j :: 0 <= i < j < |TypeKeys| ==> TypeKeys[i] != TypeKeys[j]
  {
  }

  /** `rand(arr)` once its draw is known: the element the draw selects. */
  function Pick<T>(arr: seq<T>, k: nat): (x: T)
    requires k < |arr|
    ensures x in arr
  {
    arr[k]
  }

  /** Each field of a draw lies in the range its Math.floor(Math.random() * k) can produce. */
  predicate ValidDraw(d: Draw) {
    d.typeIx < |TypeKeys| &&
    TypeKeys[d.typeIx] in Names &&
    d.nameIx < |Names[TypeKeys[d.typeIx]]| &&
    d.beds < BedsBound &&
    d.suffix < SuffixBound &&
    d.phoneSuffix < PhoneBound
  }

  predicate ValidDraws(draws: seq<Draw>) {
    |draws| >= Count && forall i :: 0 <= i < Count ==> ValidDraw(draws[i])
  }

  /** The final step of randomGeo: the centre shifted by the sampled offset. */
  function RandomGeo(center: Coord, off: Offset): Coord {
    Coord(center.lat + off.dLat, center.lng + off.dLng)
  }

  function StatusFor(beds: nat): (s: Status)
    ensures s == Available <==> beds > 3
  {
    if beds > 3 then Available else Critical
  }

  /** The record iteration i of the generator pushes. */
  function MakeResource(i: nat, center: Coord, d: Draw): (r: Resource)
    requires ValidDraw(d)
    ensures r.id == i && r.distance == 0 && r.rtype == TypeKeys[d.typeIx]
    ensures Coord(r.lat, r.lng) == RandomGeo(center, d.offset)
    ensures r.meta.beds == d.beds && (r.meta.status == Available <==> d.beds > 3)
  {
    var typeKey := Pick(TypeKeys, d.typeIx);
    var coords := RandomGeo(center, d.offset);
    Resource(
      i,
      Numbered(Pick(Names[typeKey], d.nameIx), d.suffix),
      typeKey,
      coords.lat,
      coords.lng,
      0,
      Meta(d.beds, PhonePrefix + NatToString(d.phoneSuffix), StatusFor(d.beds)))
  }

  /** The digits after the fixed phone prefix, if the string has that shape. */
  function ParsePhone(s: string): (r: Option<nat>)
  {
    if |s| > |PhonePrefix| && s[..|PhonePrefix|] == PhonePrefix && AllDigits(s[|PhonePrefix|..])
    then Some(ParseNat(s[|PhonePrefix|..]))
    else None
  }

  /** What every freshly generated record at position i satisfies. */
  ghost predicate WellFormed(r: Resource, i: nat) {
    r.id == i &&
    r.rtype in TypeKeys &&
    r.meta.beds < BedsBound &&
    (r.meta.status == Available <==> r.meta.beds > 3) &&
    r.distance == 0 &&
    SplitNumbered(r.name).Some? &&
    SplitNumbered(r.name).value.0 in Names[r.rtype] &&
    SplitNumbered(r.name).value.1 < SuffixBound &&
    ParsePhone(r.meta.phone).Some? &&
    ParsePhone(r.meta.phone).value < PhoneBound
  }

  /** The properties of one generated record, read back from its strings. */
  lemma MakeResourceWellFormed(i: nat, center: Coord, d: Draw)
    requires ValidDraw(d)
    ensures WellFormed(MakeResource(i, center, d), i)
    ensures SplitNumbered(MakeResource(i, center, d).name) == Some((Names[TypeKeys[d.typeIx]][d.nameIx], d.suffix))
    ensures ParsePhone(MakeResource(i, center, d).meta.phone) == Some(d.phoneSuffix)
  {
    var r := MakeResource(i, center, d);
    SplitNumberedRoundTrip(Names[TypeKeys[d.typeIx]][d.nameIx], d.suffix);
    var digits := NatToString(d.phoneSuffix);
    assert r.meta.phone[..|PhonePrefix|] == PhonePrefix;
    assert r.meta.phone[|PhonePrefix|..] == digits;
    ParseNatToString(d.phoneSuffix);
  }

  /** The batch generateResources returns, as a value. */
  function Batch(center: Coord, draws: seq<Draw>): (rs: seq<Resource>)
    requires ValidDraws(draws)
    ensures |rs| == Count
    ensures forall i :: 0 <= i < Count ==> rs[i].id == i && rs[i].rtype in TypeKeys
  {
    seq(Count, i requires 0 <= i < Count => MakeResource(i, center, draws[i]))
  }

  ghost predicate DistinctIds(rs: seq<Resource>) {
    forall i, j :: 0 <= i < |rs| && 0 <= j < |rs| && i != j ==> rs[i].id != rs[j].id
  }

  /** A generated batch: 15 records, record i has id i, each well formed. */
  lemma BatchWellFormed(center: Coord, draws: seq<Draw>)
    requires ValidDraws(draws)
    ensures |Batch(center, draws)| == Count
    ensures forall i :: 0 <= i < Count ==> WellFormed(Batch(center, draws)[i], i)
    ensures DistinctIds(Batch(center, draws))
    ensures forall r :: r in Batch(center, draws) ==> r.id < Count
  {
    forall i | 0 <= i < Count ensures WellFormed(Batch(center, draws)[i], i) {
      MakeResourceWellFormed(i, center, draws[i]);
    }
  }

  /** generateResources: a counted loop that pushes one record per iteration. */
  method GenerateResources(center: Coord, draws: seq<Draw>) returns (resources: seq<Resource>)
    requires ValidDraws(draws)
    ensures resources == Batch(center, draws)
    ensures |resources| == Count
    ensures forall i :: 0 <= i < Count ==> resources[i].id == i && resources[i].distance == 0
    ensures forall i :: 0 <= i < Count ==> (resources[i].meta.status == Available <==> resources[i].meta.beds > 3)
  {
    resources := [];
    for i := 0 to Count
      invariant |resources| == i
      invariant forall j :: 0 <= j < i ==> resources[j] == MakeResource(j, center, draws[j])
    {
      var d := draws[i];
      var typeKey := Pick(TypeKeys, d.typeIx);
      var name := Pick(Names[typeKey], d.nameIx);
      var coords := RandomGeo(center, d.offset);
      var beds := d.beds;
      var status := if beds > 3 then Available else Critical;
      var r := Resource(
        i,
        Numbered(name, d.suffix),
        typeKey,
        coords.lat,
        coords.lng,
        0,
        Meta(beds, PhonePrefix + NatToString(d.phoneSuffix), status));
      assert r == MakeResource(i, center, d);
      resources := resources + [r];
    }
  }
}
