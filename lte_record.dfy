/** The LTE survey record and its construction from one raw cell reading:
    the sentinel `Integer.MAX_VALUE` is folded into absence, and a reading
    without EARFCN, PCI or RSRP yields no record. */
module LteRecords {
  import opened Wrappers
  import opened JavaInt

  /** Coordinates, altitude and device time are opaque values here: the model
      copies them and never computes with them. */
  type Coord = int

  /** The nine `int` values read from `CellIdentityLte` and
      `CellSignalStrengthLte`; any of them may be `INT_MAX` ("unknown"). */
  datatype RawLte = RawLte(
    mcc: Int32, mnc: Int32, tac: Int32, ci: Int32, earfcn: Int32,
    pci: Int32, rsrp: Int32, rsrq: Int32, ta: Int32)

  /** The `Int32Value` wrapper fields of the record; `None` is "not set". */
  datatype RadioFields = RadioFields(
    mcc: Option<int>, mnc: Option<int>, tac: Option<int>, ci: Option<int>,
    earfcn: Option<int>, pci: Option<int>, rsrp: Option<int>,
    rsrq: Option<int>, ta: Option<int>)

  /** The last known location, when the location manager has one. */
  datatype Location = Location(latitude: Coord, longitude: Coord, altitude: Coord)

  /** The protobuf `LteRecord`. Latitude, longitude and altitude are plain
      (non-wrapper) fields, so a record built without a fix carries 0 in each. */
  datatype LteRecord = LteRecord(
    deviceSerialNumber: string, deviceTime: int, missionId: string,
    recordNumber: int, groupNumber: int,
    latitude: Coord, longitude: Coord, altitude: Coord,
    radio: RadioFields)

  /** One raw value, with the sentinel read as absence. */
  function Known(x: Int32): (o: Option<int>)
    ensures o == None <==> x == INT_MAX
    ensures o.Some? ==> o.value == x
  {
    if x != INT_MAX then Some(x) else None
  }

  /** The inverse mapping: absence back to the sentinel. */
  function Sentinel(o: Option<int>): int {
    o.GetOr(INT_MAX)
  }

  function FieldsOf(raw: RawLte): RadioFields {
    RadioFields(Known(raw.mcc), Known(raw.mnc), Known(raw.tac), Known(raw.ci),
                Known(raw.earfcn), Known(raw.pci), Known(raw.rsrp),
                Known(raw.rsrq), Known(raw.ta))
  }

  function RawOf(f: RadioFields): RawLte
    requires forall o <- [f.mcc, f.mnc, f.tac, f.ci, f.earfcn, f.pci, f.rsrp, f.rsrq, f.ta] ::
               o.Some? ==> INT_MIN <= o.value <= INT_MAX
  {
    RawLte(Sentinel(f.mcc), Sentinel(f.mnc), Sentinel(f.tac), Sentinel(f.ci),
           Sentinel(f.earfcn), Sentinel(f.pci), Sentinel(f.rsrp),
           Sentinel(f.rsrq), Sentinel(f.ta))
  }

  /** No information is lost folding the sentinel into absence: the raw
      reading is recovered from the optional fields. */
  lemma RawRoundTrip(raw: RawLte)
    ensures RawOf(FieldsOf(raw)) == raw
  {
  }

  /** `validate`: the three fields a record cannot do without, checked in the
      source's order. */
  function Validate(earfcn: Int32, pci: Int32, rsrp: Int32): (valid: bool)
    ensures valid <==> earfcn != INT_MAX && pci != INT_MAX && rsrp != INT_MAX
  {
    if earfcn == INT_MAX then false
    else if pci == INT_MAX then false
    else if rsrp == INT_MAX then false
    else true
  }

  /** The part of `generateLteSurveyRecord` that does not touch the writer's
      counter: the record for a reading, numbered `recordNumber` in group
      `groupNumber`, stamped with the location and time sampled for it. */
  function BuildRecord(raw: RawLte, fix: Option<Location>, deviceTime: int,
                       deviceId: string, missionId: string,
                       recordNumber: int, groupNumber: int): (r: Option<LteRecord>)
    ensures r.Some? <==> raw.earfcn != INT_MAX && raw.pci != INT_MAX && raw.rsrp != INT_MAX
    ensures r.Some? ==> r.value.radio == FieldsOf(raw)
    ensures r.Some? ==> r.value.radio.earfcn.Some? && r.value.radio.pci.Some? && r.value.radio.rsrp.Some?
    ensures r.Some? ==> r.value.recordNumber == recordNumber && r.value.groupNumber == groupNumber
    ensures r.Some? ==> r.value.deviceTime == deviceTime && r.value.deviceSerialNumber == deviceId
                        && r.value.missionId == missionId
    ensures r.Some? && fix.Some? ==>
              r.value.latitude == fix.value.latitude && r.value.longitude == fix.value.longitude
              && r.value.altitude == fix.value.altitude
    ensures r.Some? && fix.None? ==> r.value.latitude == 0 && r.value.longitude == 0 && r.value.altitude == 0
  {
    if !Validate(raw.earfcn, raw.pci, raw.rsrp) then None
    else
      var loc := fix.GetOr(Location(0, 0, 0));
      Some(LteRecord(deviceId, deviceTime, missionId, recordNumber, groupNumber,
                     loc.latitude, loc.longitude, loc.altitude, FieldsOf(raw)))
  }
}
