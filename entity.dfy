/**
 * What every Bouncie entity derives from the coordinator's data: whether it
 * is available and the device it belongs to; and the test each webhook
 * handler applies before touching its cached value.
 */
module Entity {
  import opened Wrappers
  import opened Json
  import opened Const
  import opened Vehicles

  datatype DeviceInfo = DeviceInfo(
    name: string,
    manufacturer: string,
    model: string,
    identifiers: set<(string, string)>,
    configurationUrl: string)

  /** `available`: the entity's VIN is a key of the coordinator's current data. */
  predicate Available(vin: string, data: VehicleData) {
    vin in data.byVin
  }

  /**
   * `device_info`: defined only while the VIN is in the data (otherwise the
   * lookup raises KeyError); the device is identified by the VIN alone.
   */
  function DeviceInfoFor(vin: string, data: VehicleData): (r: Result<DeviceInfo, PyError>)
    ensures r.Success? <==> Available(vin, data)
    ensures r.Failure? ==> r.error == KeyError
    ensures r.Success? ==> && r.value.name == data.byVin[vin].nickName
                           && r.value.manufacturer == data.byVin[vin].make
                           && r.value.model == data.byVin[vin].modelName
    ensures r.Success? ==> r.value.identifiers == {(DOMAIN, vin)} && r.value.configurationUrl == BOUNCIE_PORTAL
  {
    if vin in data.byVin then
      var vehicle := data.byVin[vin];
      Success(DeviceInfo(vehicle.nickName, vehicle.make, vehicle.modelName, {(DOMAIN, vin)}, BOUNCIE_PORTAL))
    else
      Failure(KeyError)
  }

  /** Two entities share a device exactly when they share a VIN. */
  lemma SameDeviceIffSameVin(vin1: string, vin2: string, data: VehicleData)
    requires Available(vin1, data) && Available(vin2, data)
    ensures DeviceInfoFor(vin1, data).value.identifiers == DeviceInfoFor(vin2, data).value.identifiers
            <==> vin1 == vin2
  {
    if DeviceInfoFor(vin1, data).value.identifiers == DeviceInfoFor(vin2, data).value.identifiers {
      assert (DOMAIN, vin1) in {(DOMAIN, vin2)};
    }
  }

  // ---------------------------------------------------------------------
  // Webhook handling shared by all entities

  /** What a handler does to one cached value: nothing, or overwrite it. */
  datatype Update = Keep | Assign(value: Value)

  /** The cached value after a handler whose step was r (a raising handler assigns nothing). */
  function Apply(r: Result<Update, PyError>, current: Value): Value {
    if r.Success? && r.value.Assign? then r.value.value else current
  }

  /** The exception a handler whose step was r lets escape, if any. */
  function RaisedBy(r: Result<Update, PyError>): Option<PyError> {
    if r.Failure? then Some(r.error) else None
  }

  /**
   * `status[ATTR_VIN] == self.vin and status[ATTR_EVENT] == event_type`,
   * evaluated left to right: the event type is looked up only for this
   * entity's vehicle, and a missing key raises KeyError.
   */
  function Selects(event: EventData, vin: string, eventType: string): (r: Result<bool, PyError>)
    ensures r == Success(true) <==> && ATTR_VIN in event && event[ATTR_VIN] == Str(vin)
                                    && ATTR_EVENT in event && event[ATTR_EVENT] == Str(eventType)
    ensures r.Failure? <==> ATTR_VIN !in event || (event[ATTR_VIN] == Str(vin) && ATTR_EVENT !in event)
    ensures r.Failure? ==> r.error == KeyError
  {
    var eventVin :- Lookup(event, ATTR_VIN);
    if eventVin != Str(vin) then Success(false)
    else
      var eventType' :- Lookup(event, ATTR_EVENT);
      Success(eventType' == Str(eventType))
  }

  /** Distinct event types: no event is selected by both a tripEnd and a tripData handler. */
  lemma {:induction false} NoEventSelectsTwoTypes(event: EventData, vin: string, vin': string)
    ensures !(Selects(event, vin, EVENT_TRIPEND) == Success(true) && Selects(event, vin', EVENT_TRIPDATA) == Success(true))
  {
    EventTypesDistinct();
    if Selects(event, vin, EVENT_TRIPEND) == Success(true) {
      assert event[ATTR_EVENT] == Str(EVENT_TRIPEND);
    }
  }
}
