/**
 * The device tracker: one per polled vehicle, caching a latitude and a
 * longitude that webhook trip data and coordinator updates overwrite.
 */
module DeviceTracker {
  import opened Wrappers
  import opened Json
  import opened Const
  import opened Vehicles
  import opened Common
  import opened Entity

  /**
   * What the tracker's event handler does: the values it assigns to `_lat`
   * and `_lon` (None: left alone) and the exception it lets escape.
   */
  datatype Fix = Fix(lat: Option<Value>, lon: Option<Value>, raised: Option<PyError>)

  /** `status[ATTR_DATA][-1][ATTR_GPS]` */
  function LastGps(event: EventData): (r: Result<Value, PyError>)
    ensures r.Success? ==> && ATTR_DATA in event && event[ATTR_DATA].Arr? && |event[ATTR_DATA].items| > 0
                           && var last := event[ATTR_DATA].items[|event[ATTR_DATA].items| - 1];
                           && last.Obj? && ATTR_GPS in last.fields && r.value == last.fields[ATTR_GPS]
    ensures r.Success? <==> && ATTR_DATA in event && Last(event[ATTR_DATA]).Success?
                            && Index(Last(event[ATTR_DATA]).value, ATTR_GPS).Success?
    ensures ATTR_DATA !in event ==> r == Failure(KeyError)
    ensures ATTR_DATA in event && Last(event[ATTR_DATA]).Failure? ==> r == Failure(Last(event[ATTR_DATA]).error)
    ensures ATTR_DATA in event && Last(event[ATTR_DATA]).Success? ==>
              r == Index(Last(event[ATTR_DATA]).value, ATTR_GPS)
  {
    var data :- Lookup(event, ATTR_DATA);
    var last :- Last(data);
    Index(last, ATTR_GPS)
  }

  /**
   * The tracker's event handler: a tripData event for this vehicle moves it
   * to the `gps` of the last `data` element. Latitude is assigned before the
   * longitude is read, so a `gps` without `lon` leaves the latitude moved and
   * the longitude stale; otherwise the two change together or not at all.
   */
  function LocationUpdate(vin: string, event: EventData): (r: Fix)
    ensures r.lon.Some? ==> r.lat.Some?
    ensures r.raised.None? ==> (r.lat.Some? <==> r.lon.Some?)
    ensures r.lat.Some? <==> && Selects(event, vin, EVENT_TRIPDATA) == Success(true)
                             && LastGps(event).Success? && Index(LastGps(event).value, ATTR_LAT).Success?
    ensures r.lat.Some? ==> r.lat.value == LastGps(event).value.fields[ATTR_LAT]
    ensures r.lon.Some? ==> ATTR_LON in LastGps(event).value.fields && r.lon.value == LastGps(event).value.fields[ATTR_LON]
    ensures r.lat.Some? && r.lon.None? ==> r.raised == Some(KeyError)
    ensures Selects(event, vin, EVENT_TRIPDATA) == Success(false) ==> r == Fix(None, None, None)
    ensures Selects(event, vin, EVENT_TRIPDATA).Failure? ==> r == Fix(None, None, Some(KeyError))
    ensures r.lon.Some? <==> r.lat.Some? && ATTR_LON in LastGps(event).value.fields
    ensures r.lon.Some? ==> r.raised.None?
    ensures Selects(event, vin, EVENT_TRIPDATA) == Success(true) && LastGps(event).Failure? ==>
              r == Fix(None, None, Some(LastGps(event).error))
    ensures Selects(event, vin, EVENT_TRIPDATA) == Success(true) && LastGps(event).Success? ==>
              var lat := Index(LastGps(event).value, ATTR_LAT);
              lat.Failure? ==> r == Fix(None, None, Some(lat.error))
  {
    match Selects(event, vin, EVENT_TRIPDATA)
    case Failure(err) => Fix(None, None, Some(err))
    case Success(selected) =>
      if !selected then Fix(None, None, None)
      else
        match LastGps(event)
        case Failure(err) => Fix(None, None, Some(err))
        case Success(gps) =>
          match Index(gps, ATTR_LAT)
          case Failure(err) => Fix(None, None, Some(err))
          case Success(lat) =>
            match Index(gps, ATTR_LON)
            case Failure(err) => Fix(Some(lat), None, Some(err))
            case Success(lon) => Fix(Some(lat), Some(lon), None)
  }

  /** A value after an optional assignment. */
  function Assigned(update: Option<Value>, current: Value): Value {
    if update.Some? then update.value else current
  }

  class BouncieDeviceTracker {
    const coordinator: VehiclesCoordinator
    const vin: string
    const uniqueId: string := vin
    const name: string
    /** `_lat` */
    var lat: Value
    /** `_lon` */
    var lon: Value

    constructor (coordinator: VehiclesCoordinator, vin: string)
      requires vin in coordinator.data.byVin
      ensures this.coordinator == coordinator && this.vin == vin
      ensures name == coordinator.data.byVin[vin].nickName
      ensures lat == Num(coordinator.data.byVin[vin].stats.location.lat)
      ensures lon == Num(coordinator.data.byVin[vin].stats.location.lon)
    {
      this.coordinator := coordinator;
      this.vin := vin;
      var vehicle := coordinator.data.byVin[vin];
      name := vehicle.nickName;
      lat := Num(vehicle.stats.location.lat);
      lon := Num(vehicle.stats.location.lon);
    }

    /** `available`: defined exactly when `device_info` is. */
    predicate Available()
      reads coordinator
      ensures Available() <==> DeviceInfoFor(vin, coordinator.data).Success?
    {
      vin in coordinator.data.byVin
    }

    /** `device_info`, identified through the unique id: the same device the vehicle's sensors join. */
    function DeviceInfo(): (r: Result<Entity.DeviceInfo, PyError>)
      reads coordinator
      ensures r == DeviceInfoFor(vin, coordinator.data)
    {
      DeviceInfoFor(uniqueId, coordinator.data)
    }

    method EventReceived(event: EventData) returns (raised: Option<PyError>)
      modifies this`lat, this`lon
      ensures raised == LocationUpdate(vin, event).raised
      ensures lat == Assigned(LocationUpdate(vin, event).lat, old(lat))
      ensures lon == Assigned(LocationUpdate(vin, event).lon, old(lon))
    {
      if ATTR_VIN !in event { return Some(KeyError); }
      if event[ATTR_VIN] == Str(vin) {
        if ATTR_EVENT !in event { return Some(KeyError); }
        if event[ATTR_EVENT] == Str(EVENT_TRIPDATA) {
          var gps := LastGps(event);
          if gps.Failure? { return Some(gps.error); }
          var newLat := Index(gps.value, ATTR_LAT);
          if newLat.Failure? { return Some(newLat.error); }
          lat := newLat.value;
          var newLon := Index(gps.value, ATTR_LON);
          if newLon.Failure? { return Some(newLon.error); }
          lon := newLon.value;
        }
      }
      return None;
    }

    /** Both coordinates come from the vehicle's current location, or neither changes (KeyError). */
    method HandleCoordinatorUpdate() returns (raised: Option<PyError>)
      modifies this`lat, this`lon
      ensures raised.None? <==> vin in coordinator.data.byVin
      ensures raised.Some? ==> raised.value == KeyError && lat == old(lat) && lon == old(lon)
      ensures raised.None? ==> && lat == Num(coordinator.data.byVin[vin].stats.location.lat)
                               && lon == Num(coordinator.data.byVin[vin].stats.location.lon)
    {
      if vin !in coordinator.data.byVin { return Some(KeyError); }
      var location := coordinator.data.byVin[vin].stats.location;
      lat := Num(location.lat);
      lon := Num(location.lon);
      return None;
    }
  }

  /** `async_setup_entry` of the tracker platform: one new tracker per key, in iteration order. */
  method SetupTrackers(coordinator: VehiclesCoordinator) returns (entities: seq<BouncieDeviceTracker>)
    requires coordinator.Valid()
    ensures |entities| == |coordinator.data.order|
    ensures forall i :: 0 <= i < |entities| ==> && entities[i].vin == coordinator.data.order[i]
                                                && entities[i].coordinator == coordinator
                                                && entities[i].name == coordinator.data.byVin[entities[i].vin].nickName
                                                && fresh(entities[i])
    ensures forall i :: 0 <= i < |entities| ==>
              && entities[i].lat == Num(coordinator.data.byVin[entities[i].vin].stats.location.lat)
              && entities[i].lon == Num(coordinator.data.byVin[entities[i].vin].stats.location.lon)
  {
    var order := coordinator.data.order;
    entities := [];
    for i := 0 to |order|
      invariant |entities| == i
      invariant forall k :: 0 <= k < i ==> && entities[k].vin == order[k]
                                           && entities[k].coordinator == coordinator
                                           && entities[k].name == coordinator.data.byVin[entities[k].vin].nickName
                                           && fresh(entities[k])
      invariant forall k :: 0 <= k < i ==>
                  && entities[k].lat == Num(coordinator.data.byVin[entities[k].vin].stats.location.lat)
                  && entities[k].lon == Num(coordinator.data.byVin[entities[k].vin].stats.location.lon)
    {
      var tracker := new BouncieDeviceTracker(coordinator, order[i]);
      entities := entities + [tracker];
    }
  }
}
