/**
 * The telemetry event in its two shapes: the nested payload exchanged with
 * clients (IoTPayload and its parts) and the flat row kept in the
 * `iot_events` table (IoTEvent).  Flattening builds a row from a payload;
 * the four projections (`location`, `measurements`, `status`, `meta_info`)
 * rebuild the nested groups from a row.
 */
module TelemetryRecord {

  /** Measurement and coordinate values are only ever copied, never computed on. */
  type Float = real

  /** Optional column value (`fault_code` is nullable). */
  datatype Option<T> = None | Some(value: T)

  // ---------- nested payload ----------

  datatype Coordinates = Coordinates(lat: Float, lon: Float)

  datatype Location = Location(site: string, coordinates: Coordinates)

  datatype Measurements = Measurements(
    acPower: Float,
    dcVoltage: Float,
    dcCurrent: Float,
    temperatureModule: Float,
    temperatureAmbient: Float)

  datatype Status = Status(operational: bool, faultCode: Option<string>)

  datatype Metadata = Metadata(firmwareVersion: string, connectionType: string)

  datatype Payload = Payload(
    deviceId: string,
    timestamp: string,
    location: Location,
    measurements: Measurements,
    status: Status,
    metadata: Metadata)

  /** The response body: the payload together with the id the store assigned. */
  datatype Response = Response(id: nat, payload: Payload)

  // ---------- flat row ----------

  /** The fourteen caller-supplied columns of an `iot_events` row. */
  datatype IoTEvent = IoTEvent(
    deviceId: string,
    timestamp: string,
    site: string,
    lat: Float,
    lon: Float,
    acPower: Float,
    dcVoltage: Float,
    dcCurrent: Float,
    temperatureModule: Float,
    temperatureAmbient: Float,
    operational: bool,
    faultCode: Option<string>,
    firmwareVersion: string,
    connectionType: string)

  /** A persisted row: the columns plus the primary key the store assigned. */
  datatype StoredEvent = StoredEvent(id: nat, event: IoTEvent)

  /** A status whose `fault_code` was left out of the payload. */
  function StatusWithoutFault(operational: bool): Status
  {
    Status(operational, None)
  }

  // ---------- projections (views over the flat row) ----------

  function LocationOf(e: IoTEvent): Location
  {
    Location(e.site, Coordinates(e.lat, e.lon))
  }

  function MeasurementsOf(e: IoTEvent): Measurements
  {
    Measurements(e.acPower, e.dcVoltage, e.dcCurrent, e.temperatureModule, e.temperatureAmbient)
  }

  function StatusOf(e: IoTEvent): Status
  {
    Status(e.operational, e.faultCode)
  }

  function MetaInfoOf(e: IoTEvent): Metadata
  {
    Metadata(e.firmwareVersion, e.connectionType)
  }

  // ---------- translation ----------

  /**
   * Copies every leaf of the payload into the column of the same name.
   * Its contract is the round trip: each projection of the row gives back
   * the payload's nested group, and the two top-level fields are kept.
   */
  function Flatten(p: Payload): (e: IoTEvent)
    ensures e.deviceId == p.deviceId && e.timestamp == p.timestamp
    ensures LocationOf(e) == p.location
    ensures MeasurementsOf(e) == p.measurements
    ensures StatusOf(e) == p.status
    ensures MetaInfoOf(e) == p.metadata
  {
    IoTEvent(
      p.deviceId,
      p.timestamp,
      p.location.site,
      p.location.coordinates.lat,
      p.location.coordinates.lon,
      p.measurements.acPower,
      p.measurements.dcVoltage,
      p.measurements.dcCurrent,
      p.measurements.temperatureModule,
      p.measurements.temperatureAmbient,
      p.status.operational,
      p.status.faultCode,
      p.metadata.firmwareVersion,
      p.metadata.connectionType)
  }

  /**
   * Re-nests a row through the four projections; flattening the result gives
   * the row back, so no column is lost on the way out.
   */
  function Nest(e: IoTEvent): (p: Payload)
    ensures Flatten(p) == e
  {
    Payload(e.deviceId, e.timestamp, LocationOf(e), MeasurementsOf(e), StatusOf(e), MetaInfoOf(e))
  }

  /** The response built from a stored row: its id and its re-nested fields. */
  function Respond(row: StoredEvent): (r: Response)
    ensures r.id == row.id
    ensures Flatten(r.payload) == row.event
  {
    Response(row.id, Nest(row.event))
  }

  /** Flattening then re-nesting reproduces the payload exactly. */
  lemma NestFlatten(p: Payload)
    ensures Nest(Flatten(p)) == p
  {
  }

  /** Flattening is injective: two payloads stored as the same row are equal. */
  lemma FlattenInjective(p: Payload, q: Payload)
    requires Flatten(p) == Flatten(q)
    ensures p == q
  {
  }

  /**
   * A payload whose status omitted `fault_code` is stored with a null
   * `fault_code` column, whatever `operational` says, and reads back as the
   * same defaulted status.
   */
  lemma OmittedFaultStoredAsNull(p: Payload, operational: bool)
    requires p.status == StatusWithoutFault(operational)
    ensures Flatten(p).faultCode == None && Flatten(p).operational == operational
    ensures StatusOf(Flatten(p)) == StatusWithoutFault(operational)
  {
  }

  /**
   * `fault_code` is stored as given, independently of `operational`: every
   * combination of the two survives the round trip.
   */
  lemma FaultCodeIndependent(p: Payload, operational: bool, faultCode: Option<string>)
    ensures var q := p.(status := Status(operational, faultCode));
            Flatten(q).operational == operational && Flatten(q).faultCode == faultCode
  {
  }
}
