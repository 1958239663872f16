/** Beacon observations as the scanning library hands them over, the record
    (BeaconSaved) the presenter derives from each one, and that derivation. */
module BeaconRecords {

  datatype Option<T> = None | Some(value: T)

  datatype Result<T, E> = Ok(value: T) | Err(error: E)

  type byte = x: int | 0 <= x < 256

  /** Service UUID of every Eddystone frame. */
  const EDDYSTONE_SERVICE_UUID: int := 0xFEAA
  /** Eddystone sub-type codes. */
  const EDDYSTONE_UID_TYPE_CODE: int := 0x00
  const EDDYSTONE_URL_TYPE_CODE: int := 0x10
  /** Beacon type code that marks an AltBeacon among non-Eddystone frames. */
  const ALTBEACON_TYPE_CODE: int := 0xBEAC
  /** Telemetry fields read positionally from a non-empty extra-data list. */
  const TELEMETRY_FIELDS: nat := 5
  const MILLIS_PER_SECOND: nat := 1000
  const SECONDS_PER_MINUTE: nat := 60

  datatype BeaconType = EddystoneUid | EddystoneUrl | IBeacon | AltBeacon

  /** An identifier of a beacon: its canonical text form and its raw bytes,
      both as the scanning library renders them. */
  datatype Identifier = Identifier(text: string, bytes: seq<byte>)

  /** One observed beacon of a ranging event. `hashCode` is the library's
      identity hash of the beacon. */
  datatype Beacon = Beacon(
    hashCode: int,
    bluetoothAddress: string,
    rssi: int,
    manufacturer: int,
    txPower: int,
    distance: real,
    serviceUuid: int,
    beaconTypeCode: int,
    identifiers: seq<Identifier>,
    extraDataFields: seq<int>)

  /** Eddystone telemetry; the temperature is kept as the raw field value. */
  datatype Telemetry = Telemetry(
    version: int,
    batteryMilliVolts: int,
    temperature: int,
    pduCount: int,
    uptime: int)

  /** The stored record. A field the classification leaves unset is None;
      `telemetry` is Some exactly when the record has telemetry data. */
  datatype BeaconSaved = BeaconSaved(
    hashcode: int,
    lastSeen: int,
    lastMinuteSeen: int,
    beaconAddress: string,
    rssi: int,
    manufacturer: int,
    txPower: int,
    distance: real,
    beaconType: Option<BeaconType>,
    namespaceId: Option<string>,
    instanceId: Option<string>,
    url: Option<string>,
    uuid: Option<string>,
    major: Option<string>,
    minor: Option<string>,
    telemetry: Option<Telemetry>)
  {
    predicate HasTelemetryData() {
      telemetry.Some?
    }
  }

  /** The out-of-range index a classification would read. */
  datatype ClassifyError = MissingTelemetryField(index: nat) | MissingIdentifier(index: nat)

  /** Integer division rounding toward zero, as on a JVM `Long`. */
  function TruncDiv(a: int, d: nat): int
    requires d > 0
  {
    if a >= 0 then a / d else -((-a) / d)
  }

  /** The minute bucket of a timestamp in milliseconds: `now / 1000 / 60`. */
  function MinuteOf(now: int): (m: int)
    ensures now >= 0 ==> m == now / 60000
    ensures now >= 0 ==> m * 60000 <= now < (m + 1) * 60000
  {
    TruncDiv(TruncDiv(now, MILLIS_PER_SECOND), SECONDS_PER_MINUTE)
  }

  /** A later observation never moves a record to an earlier minute bucket. */
  lemma MinuteMonotone(earlier: int, later: int)
    requires earlier <= later
    ensures MinuteOf(earlier) <= MinuteOf(later)
  {
  }

  predicate IsEddystone(b: Beacon) {
    b.serviceUuid == EDDYSTONE_SERVICE_UUID
  }

  /** The observations Classify accepts: the extra-data list is empty or holds
      every telemetry field, and every identifier the frame type reads exists. */
  predicate Readable(b: Beacon) {
    if IsEddystone(b) then
      && (|b.extraDataFields| == 0 || |b.extraDataFields| >= TELEMETRY_FIELDS)
      && (b.beaconTypeCode == EDDYSTONE_UID_TYPE_CODE ==> |b.identifiers| >= 2)
      && (b.beaconTypeCode == EDDYSTONE_URL_TYPE_CODE ==> |b.identifiers| >= 1)
    else
      |b.identifiers| >= 3
  }

  /** The record stored for one observed beacon at time `now`, or the index
      whose read fails; `uncompress` is the Eddystone-URL decompressor. The
      fields of the record are stated by `ClassifyFields`. */
  function Classify(b: Beacon, now: int, uncompress: seq<byte> -> string): (r: Result<BeaconSaved, ClassifyError>)
    ensures r.Ok? <==> Readable(b)
    ensures r.Ok? ==> r.value.hashcode == b.hashCode && r.value.lastSeen == now && r.value.lastMinuteSeen == MinuteOf(now)
    // Telemetry is read before the identifiers.
    ensures r.Err? && IsEddystone(b) && 0 < |b.extraDataFields| < TELEMETRY_FIELDS ==>
      r.error == MissingTelemetryField(|b.extraDataFields|)
    ensures r.Err? && r.error.MissingIdentifier? ==> r.error.index == |b.identifiers|
  {
    var ids := b.identifiers;
    var common := BeaconSaved(
      b.hashCode, now, MinuteOf(now), b.bluetoothAddress, b.rssi, b.manufacturer, b.txPower, b.distance,
      None, None, None, None, None, None, None, None);
    if IsEddystone(b) then
      var fields := b.extraDataFields;
      if 0 < |fields| < TELEMETRY_FIELDS then
        Err(MissingTelemetryField(|fields|))
      else
        var beacon := common.(telemetry :=
          if |fields| > 0 then Some(Telemetry(fields[0], fields[1], fields[2], fields[3], fields[4])) else None);
        if b.beaconTypeCode == EDDYSTONE_UID_TYPE_CODE then
          if |ids| < 2 then Err(MissingIdentifier(|ids|))
          else Ok(beacon.(beaconType := Some(EddystoneUid), namespaceId := Some(ids[0].text), instanceId := Some(ids[1].text)))
        else if b.beaconTypeCode == EDDYSTONE_URL_TYPE_CODE then
          if |ids| < 1 then Err(MissingIdentifier(|ids|))
          else Ok(beacon.(beaconType := Some(EddystoneUrl), url := Some(uncompress(ids[0].bytes))))
        else
          Ok(beacon)
    else if |ids| < 3 then
      Err(MissingIdentifier(|ids|))
    else
      Ok(common.(
        beaconType := Some(if b.beaconTypeCode == ALTBEACON_TYPE_CODE then AltBeacon else IBeacon),
        uuid := Some(ids[0].text), major := Some(ids[1].text), minor := Some(ids[2].text)))
  }

  /** The record of a readable beacon: the common fields copied, telemetry
      exactly for an Eddystone frame with extra data, the type tag decided by
      the service UUID and the type code, and the payload of that type. */
  lemma ClassifyFields(b: Beacon, now: int, uncompress: seq<byte> -> string)
    requires Readable(b)
    ensures var r := Classify(b, now, uncompress).value;
      && r.beaconAddress == b.bluetoothAddress
      && r.rssi == b.rssi
      && r.manufacturer == b.manufacturer
      && r.txPower == b.txPower
      && r.distance == b.distance
    // Telemetry.
    ensures var r := Classify(b, now, uncompress).value;
      && (r.HasTelemetryData() <==> IsEddystone(b) && |b.extraDataFields| > 0)
      && (r.HasTelemetryData() ==>
            r.telemetry.value == Telemetry(b.extraDataFields[0], b.extraDataFields[1],
              b.extraDataFields[2], b.extraDataFields[3], b.extraDataFields[4]))
    // Type tag, in both directions.
    ensures var r := Classify(b, now, uncompress).value;
      && (r.beaconType == Some(EddystoneUid) <==> IsEddystone(b) && b.beaconTypeCode == EDDYSTONE_UID_TYPE_CODE)
      && (r.beaconType == Some(EddystoneUrl) <==> IsEddystone(b) && b.beaconTypeCode == EDDYSTONE_URL_TYPE_CODE)
      && (r.beaconType == Some(AltBeacon) <==> !IsEddystone(b) && b.beaconTypeCode == ALTBEACON_TYPE_CODE)
      && (r.beaconType == Some(IBeacon) <==> !IsEddystone(b) && b.beaconTypeCode != ALTBEACON_TYPE_CODE)
      && (r.beaconType == None <==>
            IsEddystone(b) && b.beaconTypeCode != EDDYSTONE_UID_TYPE_CODE && b.beaconTypeCode != EDDYSTONE_URL_TYPE_CODE)
    // Type-specific payload.
    ensures var r := Classify(b, now, uncompress).value;
      r.beaconType == Some(EddystoneUid) ==>
        && r.namespaceId == Some(b.identifiers[0].text)
        && r.instanceId == Some(b.identifiers[1].text)
        && r.url == r.uuid == r.major == r.minor == None
    ensures var r := Classify(b, now, uncompress).value;
      r.beaconType == Some(EddystoneUrl) ==>
        && r.url == Some(uncompress(b.identifiers[0].bytes))
        && r.namespaceId == r.instanceId == r.uuid == r.major == r.minor == None
    ensures var r := Classify(b, now, uncompress).value;
      !IsEddystone(b) ==>
        && r.uuid == Some(b.identifiers[0].text)
        && r.major == Some(b.identifiers[1].text)
        && r.minor == Some(b.identifiers[2].text)
        && r.namespaceId == r.instanceId == r.url == None
    ensures var r := Classify(b, now, uncompress).value;
      r.beaconType == None ==>
        r.namespaceId == r.instanceId == r.url == r.uuid == r.major == r.minor == None
  {
  }

  /** Two observations of one beacon that differ only in signal strength and
      distance give records that differ only in those two fields. */
  lemma SignalOnlyChangesSignalFields(b: Beacon, rssi: int, distance: real, now: int, uncompress: seq<byte> -> string)
    requires Readable(b)
    ensures var b' := b.(rssi := rssi, distance := distance);
      Classify(b', now, uncompress).Ok? &&
      Classify(b', now, uncompress).value == Classify(b, now, uncompress).value.(rssi := rssi, distance := distance)
  {
  }
}
