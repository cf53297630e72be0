/**
 * The odometer, fuel-level and speed sensors: which ones a config entry
 * creates, the value each caches, and how a webhook event or a coordinator
 * update overwrites that value.
 */
module Sensor {
  import opened Wrappers
  import opened Json
  import opened Const
  import opened Vehicles
  import opened Common
  import opened Entity

  datatype SensorKind = OdometerKind | FuelLevelKind | SpeedKind

  /** The `stats` key each kind of sensor reads. */
  function StatOf(stats: Stats, kind: SensorKind): Field<real> {
    match kind
    case OdometerKind => stats.odometer
    case FuelLevelKind => stats.fuelLevel
    case SpeedKind => stats.speed
  }

  function Suffix(kind: SensorKind): string {
    match kind
    case OdometerKind => "_odometer"
    case FuelLevelKind => "_fuelLevel"
    case SpeedKind => "_speed"
  }

  function Label(kind: SensorKind): string {
    match kind
    case OdometerKind => " Odometer"
    case FuelLevelKind => " Fuel Level"
    case SpeedKind => " Speed"
  }

  function SensorUniqueId(kind: SensorKind, vin: string): string {
    vin + Suffix(kind)
  }

  function SensorName(kind: SensorKind, nickName: string): string {
    nickName + Label(kind)
  }

  /** Sensors that differ in kind or VIN never share a unique id. */
  lemma SensorUniqueIdsDiffer(kind1: SensorKind, vin1: string, kind2: SensorKind, vin2: string)
    requires (kind1, vin1) != (kind2, vin2)
    ensures SensorUniqueId(kind1, vin1) != SensorUniqueId(kind2, vin2)
  {
    var id1, id2 := SensorUniqueId(kind1, vin1), SensorUniqueId(kind2, vin2);
    if kind1 != kind2 {
      // the three suffixes end in different letters
      assert id1[|id1| - 1] != id2[|id2| - 1];
    } else if |vin1| != |vin2| {
      assert |id1| != |id2|;
    } else {
      assert id1[..|vin1|] == vin1 && id2[..|vin2|] == vin2;
    }
  }

  // ---------------------------------------------------------------------
  // Which sensors a config entry creates

  /** The VINs, in iteration order, whose stats carry a non-None value for kind. */
  function Having(order: seq<string>, byVin: map<string, Vehicle>, kind: SensorKind): (vins: seq<string>)
    requires forall i :: 0 <= i < |order| ==> order[i] in byVin
    ensures |vins| <= |order|
    decreases |order|
  {
    if order == [] then []
    else
      var vin := order[|order| - 1];
      Having(order[..|order| - 1], byVin, kind)
        + (if StatOf(byVin[vin].stats, kind).Present? then [vin] else [])
  }

  lemma {:induction false} HavingExactly(order: seq<string>, byVin: map<string, Vehicle>, kind: SensorKind)
    requires forall i :: 0 <= i < |order| ==> order[i] in byVin
    ensures forall vin :: vin in Having(order, byVin, kind) <==> vin in order && StatOf(byVin[vin].stats, kind).Present?
    decreases |order|
  {
    if order != [] {
      var front := order[..|order| - 1];
      HavingExactly(front, byVin, kind);
      assert order == front + [order[|order| - 1]];
    }
  }

  /** Filtering a list without repeats gives a list without repeats. */
  lemma {:induction false} HavingDistinct(order: seq<string>, byVin: map<string, Vehicle>, kind: SensorKind)
    requires forall i :: 0 <= i < |order| ==> order[i] in byVin
    requires forall i, j :: 0 <= i < j < |order| ==> order[i] != order[j]
    ensures forall i, j :: 0 <= i < j < |Having(order, byVin, kind)| ==> Having(order, byVin, kind)[i] != Having(order, byVin, kind)[j]
    decreases |order|
  {
    if order != [] {
      var front := order[..|order| - 1];
      HavingExactly(front, byVin, kind);
      HavingDistinct(front, byVin, kind);
      assert order == front + [order[|order| - 1]];
    }
  }

  function Tagged(kind: SensorKind, vins: seq<string>): (s: seq<(SensorKind, string)>)
    ensures |s| == |vins|
  {
    seq(|vins|, i requires 0 <= i < |vins| => (kind, vins[i]))
  }

  /** The sensors `async_setup_entry` creates, in order: odometers, then fuel levels, then speeds. */
  function SensorPlan(data: VehicleData): (plan: seq<(SensorKind, string)>)
    requires data.Valid()
    ensures |plan| <= 3 * |data.order|
  {
    Tagged(OdometerKind, Having(data.order, data.byVin, OdometerKind))
      + Tagged(FuelLevelKind, Having(data.order, data.byVin, FuelLevelKind))
      + Tagged(SpeedKind, Having(data.order, data.byVin, SpeedKind))
  }

  lemma TaggedMembers(kind: SensorKind, vins: seq<string>)
    ensures forall p: (SensorKind, string) :: p in Tagged(kind, vins) <==> p.0 == kind && p.1 in vins
  {
    forall p: (SensorKind, string) | p.0 == kind && p.1 in vins
      ensures p in Tagged(kind, vins)
    {
      var k :| 0 <= k < |vins| && vins[k] == p.1;
      assert Tagged(kind, vins)[k] == p;
    }
  }

  lemma PlanSound(data: VehicleData, kind: SensorKind, vin: string)
    requires data.Valid()
    requires (kind, vin) in SensorPlan(data)
    ensures vin in data.byVin && StatOf(data.byVin[vin].stats, kind).Present?
  {
    TaggedMembers(OdometerKind, Having(data.order, data.byVin, OdometerKind));
    TaggedMembers(FuelLevelKind, Having(data.order, data.byVin, FuelLevelKind));
    TaggedMembers(SpeedKind, Having(data.order, data.byVin, SpeedKind));
    HavingExactly(data.order, data.byVin, kind);
  }

  lemma PlanComplete(data: VehicleData, kind: SensorKind, vin: string)
    requires data.Valid()
    requires vin in data.byVin && StatOf(data.byVin[vin].stats, kind).Present?
    ensures (kind, vin) in SensorPlan(data)
  {
    HavingExactly(data.order, data.byVin, kind);
    TaggedMembers(kind, Having(data.order, data.byVin, kind));
  }

  /** A sensor of a kind is created for a VIN exactly when that vehicle's stat is not None. */
  lemma PlanExactly(data: VehicleData, kind: SensorKind, vin: string)
    requires data.Valid()
    ensures (kind, vin) in SensorPlan(data) <==> vin in data.byVin && StatOf(data.byVin[vin].stats, kind).Present?
  {
    if (kind, vin) in SensorPlan(data) {
      PlanSound(data, kind, vin);
    }
    if vin in data.byVin && StatOf(data.byVin[vin].stats, kind).Present? {
      PlanComplete(data, kind, vin);
    }
  }

  /** No sensor is planned twice, so no two created sensors share a unique id. */
  lemma PlanUniqueIds(data: VehicleData)
    requires data.Valid()
    ensures forall i, j :: 0 <= i < j < |SensorPlan(data)| ==> SensorPlan(data)[i] != SensorPlan(data)[j]
    ensures forall i, j :: 0 <= i < j < |SensorPlan(data)| ==>
              SensorUniqueId(SensorPlan(data)[i].0, SensorPlan(data)[i].1)
              != SensorUniqueId(SensorPlan(data)[j].0, SensorPlan(data)[j].1)
  {
    var plan := SensorPlan(data);
    var o := Having(data.order, data.byVin, OdometerKind);
    var f := Having(data.order, data.byVin, FuelLevelKind);
    var s := Having(data.order, data.byVin, SpeedKind);
    HavingDistinct(data.order, data.byVin, OdometerKind);
    HavingDistinct(data.order, data.byVin, FuelLevelKind);
    HavingDistinct(data.order, data.byVin, SpeedKind);
    forall i, j | 0 <= i < j < |plan|
      ensures plan[i] != plan[j]
      ensures SensorUniqueId(plan[i].0, plan[i].1) != SensorUniqueId(plan[j].0, plan[j].1)
    {
      if j < |o| {
        assert plan[i].1 == o[i] && plan[j].1 == o[j];
      } else if i >= |o| && j < |o| + |f| {
        assert plan[i].1 == f[i - |o|] && plan[j].1 == f[j - |o|];
      } else if i >= |o| + |f| {
        assert plan[i].1 == s[i - |o| - |f|] && plan[j].1 == s[j - |o| - |f|];
      } else {
        assert plan[i].0 != plan[j].0;
      }
      SensorUniqueIdsDiffer(plan[i].0, plan[i].1, plan[j].0, plan[j].1);
    }
  }

  // ---------------------------------------------------------------------
  // What events and coordinator updates do to a sensor's value

  const END := "end"
  const ODOMETER := "odometer"
  const SPEED := "speed"
  const FUEL_LEVEL_INPUT := "fuelLevelInput"

  /** The odometer handler: a tripEnd for this vehicle sets the value to `end.odometer`. */
  function OdometerUpdate(vin: string, event: EventData): (r: Result<Update, PyError>)
    ensures r.Success? && r.value.Assign? <==>
              && Selects(event, vin, EVENT_TRIPEND) == Success(true)
              && END in event && Index(event[END], ODOMETER).Success?
    ensures r.Success? && r.value.Assign? ==> r.value.value == event[END].fields[ODOMETER]
    ensures Selects(event, vin, EVENT_TRIPEND) == Success(false) ==> r == Success(Keep)
    ensures Selects(event, vin, EVENT_TRIPEND).Failure? ==> r == Failure(KeyError)
    ensures Selects(event, vin, EVENT_TRIPEND) == Success(true) ==>
              && (r.Failure? <==> !(END in event && Index(event[END], ODOMETER).Success?))
              && (END !in event ==> r == Failure(KeyError))
              && (END in event && Index(event[END], ODOMETER).Failure? ==> r == Failure(Index(event[END], ODOMETER).error))
  {
    var selected :- Selects(event, vin, EVENT_TRIPEND);
    if !selected then Success(Keep)
    else
      var end :- Lookup(event, END);
      var odometer :- Index(end, ODOMETER);
      Success(Assign(odometer))
  }

  /** The speed handler: a tripData for this vehicle sets the value to `data[-1].speed`. */
  function SpeedUpdate(vin: string, event: EventData): (r: Result<Update, PyError>)
    ensures r.Success? && r.value.Assign? <==>
              && Selects(event, vin, EVENT_TRIPDATA) == Success(true)
              && ATTR_DATA in event && event[ATTR_DATA].Arr? && |event[ATTR_DATA].items| > 0
              && Index(event[ATTR_DATA].items[|event[ATTR_DATA].items| - 1], SPEED).Success?
    ensures r.Success? && r.value.Assign? ==>
              r.value.value == event[ATTR_DATA].items[|event[ATTR_DATA].items| - 1].fields[SPEED]
    ensures Selects(event, vin, EVENT_TRIPDATA) == Success(false) ==> r == Success(Keep)
    ensures r.Success? && Selects(event, vin, EVENT_TRIPDATA) == Success(true) ==> r.value.Assign?
    ensures Selects(event, vin, EVENT_TRIPDATA).Failure? ==> r == Failure(KeyError)
    ensures Selects(event, vin, EVENT_TRIPDATA) == Success(true) ==>
              && (ATTR_DATA !in event ==> r == Failure(KeyError))
              && (ATTR_DATA in event && Last(event[ATTR_DATA]).Failure? ==> r == Failure(Last(event[ATTR_DATA]).error))
              && (ATTR_DATA in event && Last(event[ATTR_DATA]).Success? ==>
                    var last := Last(event[ATTR_DATA]).value;
                    Index(last, SPEED).Failure? ==> r == Failure(Index(last, SPEED).error))
              && (ATTR_DATA in event && event[ATTR_DATA] == Arr([]) ==> r == Failure(IndexError))
  {
    var selected :- Selects(event, vin, EVENT_TRIPDATA);
    if !selected then Success(Keep)
    else
      var data :- Lookup(event, ATTR_DATA);
      var last :- Last(data);
      var speed :- Index(last, SPEED);
      Success(Assign(speed))
  }

  /** The outcome of the fuel handler's reversed scan of `data`. */
  datatype Scan = Found(level: Value) | Exhausted | Broken(error: PyError)

  /** An entry the scan moves past: a dict without a non-None `fuelLevelInput`. */
  predicate Passes(entry: Value) {
    entry.Obj? && GetNotNone(entry.fields, FUEL_LEVEL_INPUT).None?
  }

  /** An entry that ends the scan with a reading. */
  predicate HasFuel(entry: Value) {
    entry.Obj? && GetNotNone(entry.fields, FUEL_LEVEL_INPUT).Some?
  }

  /**
   * `for entry in reversed(data): if (x := entry.get("fuelLevelInput")) is not None: … break`:
   * from the end, the first entry with a reading wins; an entry that is not a
   * dict has no `get` and raises AttributeError.
   */
  function FuelScan(entries: seq<Value>): (r: Scan)
    ensures r.Found? ==> r.level != Null
    ensures r.Broken? ==> r.error == AttributeError
    decreases |entries|
  {
    if entries == [] then Exhausted
    else
      var entry := entries[|entries| - 1];
      if !entry.Obj? then Broken(AttributeError)
      else
        match GetNotNone(entry.fields, FUEL_LEVEL_INPUT)
        case Some(level) => Found(level)
        case None => FuelScan(entries[..|entries| - 1])
  }

  /** Every entry after index i is one the scan moves past. */
  ghost predicate PassedAfter(entries: seq<Value>, i: int) {
    forall j :: 0 <= j < |entries| && i < j ==> Passes(entries[j])
  }

  /** A list the scan moves past entirely leaves the value as it was. */
  lemma {:induction false} ScanPastAll(entries: seq<Value>)
    requires PassedAfter(entries, -1)
    ensures FuelScan(entries) == Exhausted
    decreases |entries|
  {
    if entries != [] {
      var front := entries[..|entries| - 1];
      assert Passes(entries[|entries| - 1]);
      assert PassedAfter(front, -1) by {
        forall j | 0 <= j < |front| ensures Passes(front[j]) { assert front[j] == entries[j]; }
      }
      ScanPastAll(front);
    }
  }

  /**
   * Earlier entries never override a later reading: a reading (or a non-dict)
   * in the suffix decides the scan whatever precedes it, and a suffix the scan
   * moves past entirely leaves the decision to the prefix.
   */
  lemma {:induction false} LaterEntriesDecide(prefix: seq<Value>, suffix: seq<Value>)
    ensures !FuelScan(suffix).Exhausted? ==> FuelScan(prefix + suffix) == FuelScan(suffix)
    ensures FuelScan(suffix).Exhausted? ==> FuelScan(prefix + suffix) == FuelScan(prefix)
    decreases |suffix|
  {
    if suffix == [] {
      assert prefix + suffix == prefix;
    } else {
      var n := |suffix| - 1;
      assert (prefix + suffix)[..|prefix + suffix| - 1] == prefix + suffix[..n];
      assert (prefix + suffix)[|prefix + suffix| - 1] == suffix[n];
      LaterEntriesDecide(prefix, suffix[..n]);
    }
  }

  /**
   * The scan's result is decided by the last entry it does not move past: its
   * reading if it has one, AttributeError if it is not a dict.
   */
  lemma FuelScanLastReading(entries: seq<Value>, i: nat)
    requires i < |entries| && PassedAfter(entries, i)
    ensures HasFuel(entries[i]) ==> FuelScan(entries) == Found(entries[i].fields[FUEL_LEVEL_INPUT])
    ensures !entries[i].Obj? ==> FuelScan(entries) == Broken(AttributeError)
  {
    var prefix, suffix := entries[..i + 1], entries[i + 1..];
    assert PassedAfter(suffix, -1) by {
      forall j | 0 <= j < |suffix| ensures Passes(suffix[j]) { assert suffix[j] == entries[i + 1 + j]; }
    }
    ScanPastAll(suffix);
    LaterEntriesDecide(prefix, suffix);
    assert prefix + suffix == entries;
    assert prefix[..i] == entries[..i];
  }

  /** What iterating `reversed(data)` decides, by the shape of `data`. */
  predicate FuelFromData(data: Value, r: Result<Update, PyError>) {
    && (data.Arr? && FuelScan(data.items).Found? ==> r == Success(Assign(FuelScan(data.items).level)))
    && (data.Arr? && FuelScan(data.items).Exhausted? ==> r == Success(Keep))
    && (data.Arr? && FuelScan(data.items).Broken? ==> r == Failure(AttributeError))
    && (data.Str? ==> r == if data.s == "" then Success(Keep) else Failure(AttributeError))
    && (data.Obj? ==> r == if data.fields == map[] then Success(Keep) else Failure(AttributeError))
    && (data.Null? || data.Num? || data.Bool? ==> r == Failure(TypeError))
  }

  /** The fuel-level handler: a tripData for this vehicle sets the value to the last reading in `data`. */
  function FuelLevelUpdate(vin: string, event: EventData): (r: Result<Update, PyError>)
    ensures r.Success? && r.value.Assign? <==>
              && Selects(event, vin, EVENT_TRIPDATA) == Success(true)
              && ATTR_DATA in event && event[ATTR_DATA].Arr? && FuelScan(event[ATTR_DATA].items).Found?
    ensures r.Success? && r.value.Assign? ==>
              r.value.value == FuelScan(event[ATTR_DATA].items).level && r.value.value != Null
    ensures Selects(event, vin, EVENT_TRIPDATA) == Success(false) ==> r == Success(Keep)
    ensures Selects(event, vin, EVENT_TRIPDATA).Failure? ==> r == Failure(KeyError)
    ensures Selects(event, vin, EVENT_TRIPDATA) == Success(true) ==>
              && (ATTR_DATA !in event ==> r == Failure(KeyError))
              && (ATTR_DATA in event ==> FuelFromData(event[ATTR_DATA], r))
  {
    var selected :- Selects(event, vin, EVENT_TRIPDATA);
    if !selected then Success(Keep)
    else
      var data :- Lookup(event, ATTR_DATA);
      match data
      case Arr(entries) =>
        (match FuelScan(entries)
         case Found(level) => Success(Assign(level))
         case Exhausted => Success(Keep)
         case Broken(err) => Failure(err))
      // reversed() of a string or a dict yields strings, which have no `get`
      case Str(s) => if s == "" then Success(Keep) else Failure(AttributeError)
      case Obj(fields) => if |fields| == 0 then Success(Keep) else Failure(AttributeError)
      case _ => Failure(TypeError)
  }

  /** No event moves both an odometer and a speed sensor. */
  lemma OdometerAndSpeedNeverBothMove(vin: string, vin': string, event: EventData)
    ensures !(OdometerUpdate(vin, event).Success? && OdometerUpdate(vin, event).value.Assign?
              && SpeedUpdate(vin', event).Success? && SpeedUpdate(vin', event).value.Assign?)
  {
    NoEventSelectsTwoTypes(event, vin, vin');
  }

  /**
   * `_handle_coordinator_update`: the value becomes the current stat of the
   * vehicle (None if the stat is null); a VIN no longer polled or a stat key
   * that is gone raises KeyError.
   */
  function CoordinatorReading(data: VehicleData, vin: string, kind: SensorKind): (r: Result<Value, PyError>)
    ensures r.Success? <==> vin in data.byVin && !StatOf(data.byVin[vin].stats, kind).Absent?
    ensures r.Success? ==> r.value == FieldValue(StatOf(data.byVin[vin].stats, kind))
    ensures r.Failure? ==> r.error == KeyError
  {
    if vin !in data.byVin then Failure(KeyError)
    else
      var stat := StatOf(data.byVin[vin].stats, kind);
      if stat.Absent? then Failure(KeyError) else Success(FieldValue(stat))
  }

  // ---------------------------------------------------------------------
  // The sensor entities

  class Odometer {
    const coordinator: VehiclesCoordinator
    const vin: string
    const uniqueId: string := SensorUniqueId(OdometerKind, vin)
    const name: string
    /** `_odometer` */
    var value: Value

    constructor (coordinator: VehiclesCoordinator, vin: string)
      requires vin in coordinator.data.byVin && !coordinator.data.byVin[vin].stats.odometer.Absent?
      ensures this.coordinator == coordinator && this.vin == vin
      ensures name == SensorName(OdometerKind, coordinator.data.byVin[vin].nickName)
      ensures value == FieldValue(coordinator.data.byVin[vin].stats.odometer)
    {
      this.coordinator := coordinator;
      this.vin := vin;
      var vehicle := coordinator.data.byVin[vin];
      name := SensorName(OdometerKind, vehicle.nickName);
      value := FieldValue(vehicle.stats.odometer);
    }

    method EventReceived(event: EventData) returns (raised: Option<PyError>)
      modifies this`value
      ensures raised == RaisedBy(OdometerUpdate(vin, event))
      ensures value == Apply(OdometerUpdate(vin, event), old(value))
    {
      if ATTR_VIN !in event { return Some(KeyError); }
      if event[ATTR_VIN] == Str(vin) {
        if ATTR_EVENT !in event { return Some(KeyError); }
        if event[ATTR_EVENT] == Str(EVENT_TRIPEND) {
          if END !in event { return Some(KeyError); }
          var odometer := Index(event[END], ODOMETER);
          if odometer.Failure? { return Some(odometer.error); }
          value := odometer.value;
        }
      }
      return None;
    }

    method HandleCoordinatorUpdate() returns (raised: Option<PyError>)
      modifies this`value
      ensures raised.None? <==> CoordinatorReading(coordinator.data, vin, OdometerKind).Success?
      ensures raised.Some? ==> raised == Some(KeyError)
      ensures value == if raised.None? then CoordinatorReading(coordinator.data, vin, OdometerKind).value else old(value)
    {
      if vin !in coordinator.data.byVin { return Some(KeyError); }
      var stat := coordinator.data.byVin[vin].stats.odometer;
      if stat.Absent? { return Some(KeyError); }
      value := FieldValue(stat);
      return None;
    }
  }

  class FuelLevelSensor {
    const coordinator: VehiclesCoordinator
    const vin: string
    const uniqueId: string := SensorUniqueId(FuelLevelKind, vin)
    const name: string
    /** `_fuellevel` */
    var value: Value

    constructor (coordinator: VehiclesCoordinator, vin: string)
      requires vin in coordinator.data.byVin && !coordinator.data.byVin[vin].stats.fuelLevel.Absent?
      ensures this.coordinator == coordinator && this.vin == vin
      ensures name == SensorName(FuelLevelKind, coordinator.data.byVin[vin].nickName)
      ensures value == FieldValue(coordinator.data.byVin[vin].stats.fuelLevel)
    {
      this.coordinator := coordinator;
      this.vin := vin;
      var vehicle := coordinator.data.byVin[vin];
      name := SensorName(FuelLevelKind, vehicle.nickName);
      value := FieldValue(vehicle.stats.fuelLevel);
    }

    method EventReceived(event: EventData) returns (raised: Option<PyError>)
      modifies this`value
      ensures raised == RaisedBy(FuelLevelUpdate(vin, event))
      ensures value == Apply(FuelLevelUpdate(vin, event), old(value))
    {
      if ATTR_VIN !in event { return Some(KeyError); }
      if event[ATTR_VIN] != Str(vin) { return None; }
      if ATTR_EVENT !in event { return Some(KeyError); }
      if event[ATTR_EVENT] != Str(EVENT_TRIPDATA) { return None; }
      if ATTR_DATA !in event { return Some(KeyError); }
      match event[ATTR_DATA]
      case Arr(entries) =>
        var i := |entries|;
        assert entries[..i] == entries;
        while i > 0
          invariant 0 <= i <= |entries|
          invariant FuelScan(entries[..i]) == FuelScan(entries)
          invariant value == old(value)
        {
          var entry := entries[i - 1];
          if !entry.Obj? { return Some(AttributeError); }
          var level := GetNotNone(entry.fields, FUEL_LEVEL_INPUT);
          if level.Some? {
            value := level.value;
            return None;
          }
          assert entries[..i][..i - 1] == entries[..i - 1];
          i := i - 1;
        }
        return None;
      case Str(s) => return if s == "" then None else Some(AttributeError);
      case Obj(fields) => return if |fields| == 0 then None else Some(AttributeError);
      case _ => return Some(TypeError);
    }

    method HandleCoordinatorUpdate() returns (raised: Option<PyError>)
      modifies this`value
      ensures raised.None? <==> CoordinatorReading(coordinator.data, vin, FuelLevelKind).Success?
      ensures raised.Some? ==> raised == Some(KeyError)
      ensures value == if raised.None? then CoordinatorReading(coordinator.data, vin, FuelLevelKind).value else old(value)
    {
      if vin !in coordinator.data.byVin { return Some(KeyError); }
      var stat := coordinator.data.byVin[vin].stats.fuelLevel;
      if stat.Absent? { return Some(KeyError); }
      value := FieldValue(stat);
      return None;
    }
  }

  class SpeedSensor {
    const coordinator: VehiclesCoordinator
    const vin: string
    const uniqueId: string := SensorUniqueId(SpeedKind, vin)
    const name: string
    /** `_speed` */
    var value: Value

    constructor (coordinator: VehiclesCoordinator, vin: string)
      requires vin in coordinator.data.byVin && !coordinator.data.byVin[vin].stats.speed.Absent?
      ensures this.coordinator == coordinator && this.vin == vin
      ensures name == SensorName(SpeedKind, coordinator.data.byVin[vin].nickName)
      ensures value == FieldValue(coordinator.data.byVin[vin].stats.speed)
    {
      this.coordinator := coordinator;
      this.vin := vin;
      var vehicle := coordinator.data.byVin[vin];
      name := SensorName(SpeedKind, vehicle.nickName);
      value := FieldValue(vehicle.stats.speed);
    }

    method EventReceived(event: EventData) returns (raised: Option<PyError>)
      modifies this`value
      ensures raised == RaisedBy(SpeedUpdate(vin, event))
      ensures value == Apply(SpeedUpdate(vin, event), old(value))
    {
      if ATTR_VIN !in event { return Some(KeyError); }
      if event[ATTR_VIN] == Str(vin) {
        if ATTR_EVENT !in event { return Some(KeyError); }
        if event[ATTR_EVENT] == Str(EVENT_TRIPDATA) {
          if ATTR_DATA !in event { return Some(KeyError); }
          var last := Last(event[ATTR_DATA]);
          if last.Failure? { return Some(last.error); }
          var speed := Index(last.value, SPEED);
          if speed.Failure? { return Some(speed.error); }
          value := speed.value;
        }
      }
      return None;
    }

    method HandleCoordinatorUpdate() returns (raised: Option<PyError>)
      modifies this`value
      ensures raised.None? <==> CoordinatorReading(coordinator.data, vin, SpeedKind).Success?
      ensures raised.Some? ==> raised == Some(KeyError)
      ensures value == if raised.None? then CoordinatorReading(coordinator.data, vin, SpeedKind).value else old(value)
    {
      if vin !in coordinator.data.byVin { return Some(KeyError); }
      var stat := coordinator.data.byVin[vin].stats.speed;
      if stat.Absent? { return Some(KeyError); }
      value := FieldValue(stat);
      return None;
    }
  }

  // ---------------------------------------------------------------------
  // Setting up the sensor platform

  /** One element of the `entities` list `async_setup_entry` hands to the host. */
  datatype SensorEntity =
    | OdometerEntity(odometer: Odometer)
    | FuelLevelEntity(fuelLevel: FuelLevelSensor)
    | SpeedEntity(speed: SpeedSensor)
  {
    function Kind(): SensorKind {
      match this
      case OdometerEntity(_) => OdometerKind
      case FuelLevelEntity(_) => FuelLevelKind
      case SpeedEntity(_) => SpeedKind
    }

    function Vin(): string {
      match this
      case OdometerEntity(e) => e.vin
      case FuelLevelEntity(e) => e.vin
      case SpeedEntity(e) => e.vin
    }

    function Name(): string {
      match this
      case OdometerEntity(e) => e.name
      case FuelLevelEntity(e) => e.name
      case SpeedEntity(e) => e.name
    }

    function Coordinator(): VehiclesCoordinator {
      match this
      case OdometerEntity(e) => e.coordinator
      case FuelLevelEntity(e) => e.coordinator
      case SpeedEntity(e) => e.coordinator
    }

    function Object(): object {
      match this
      case OdometerEntity(e) => e
      case FuelLevelEntity(e) => e
      case SpeedEntity(e) => e
    }

    function Reading(): Value
      reads Object()
    {
      match this
      case OdometerEntity(e) => e.value
      case FuelLevelEntity(e) => e.value
      case SpeedEntity(e) => e.value
    }
  }

  /** The kind and VIN of each entity, in list order. */
  function Describe(entities: seq<SensorEntity>): (s: seq<(SensorKind, string)>)
    ensures |s| == |entities|
  {
    seq(|entities|, i requires 0 <= i < |entities| => (entities[i].Kind(), entities[i].Vin()))
  }

  /** A sensor as its constructor leaves it: bound to the coordinator, named and valued from its vehicle. */
  ghost predicate Created(entity: SensorEntity, coordinator: VehiclesCoordinator)
    reads entity.Object(), coordinator
  {
    && entity.Coordinator() == coordinator
    && entity.Vin() in coordinator.data.byVin
    && var vehicle := coordinator.data.byVin[entity.Vin()];
    && !StatOf(vehicle.stats, entity.Kind()).Absent?
    && entity.Name() == SensorName(entity.Kind(), vehicle.nickName)
    && entity.Reading() == FieldValue(StatOf(vehicle.stats, entity.Kind()))
  }

  /** Every entity of the list is as its constructor left it. */
  ghost predicate AllCreated(entities: seq<SensorEntity>, coordinator: VehiclesCoordinator)
    reads coordinator, set e | e in entities :: e.Object()
  {
    forall e :: e in entities ==> Created(e, coordinator)
  }

  lemma AllCreatedSnoc(entities: seq<SensorEntity>, entity: SensorEntity, coordinator: VehiclesCoordinator)
    requires AllCreated(entities, coordinator) && Created(entity, coordinator)
    ensures AllCreated(entities + [entity], coordinator)
  {
  }

  /** `BouncieOdometer(coordinator, vin)` and its two siblings, by kind. */
  method NewSensor(coordinator: VehiclesCoordinator, kind: SensorKind, vin: string) returns (entity: SensorEntity)
    requires vin in coordinator.data.byVin && !StatOf(coordinator.data.byVin[vin].stats, kind).Absent?
    ensures entity.Kind() == kind && entity.Vin() == vin
    ensures fresh(entity.Object()) && Created(entity, coordinator)
  {
    match kind {
      case OdometerKind =>
        var sensor := new Odometer(coordinator, vin);
        entity := OdometerEntity(sensor);
      case FuelLevelKind =>
        var sensor := new FuelLevelSensor(coordinator, vin);
        entity := FuelLevelEntity(sensor);
      case SpeedKind =>
        var sensor := new SpeedSensor(coordinator, vin);
        entity := SpeedEntity(sensor);
    }
  }

  lemma DescribeSnoc(entities: seq<SensorEntity>, entity: SensorEntity)
    ensures Describe(entities + [entity]) == Describe(entities) + [(entity.Kind(), entity.Vin())]
  {
    assert forall i :: 0 <= i < |entities| ==> (entities + [entity])[i] == entities[i];
  }

  lemma TaggedSnoc(kind: SensorKind, vins: seq<string>, vin: string)
    ensures Tagged(kind, vins + [vin]) == Tagged(kind, vins) + [(kind, vin)]
  {
  }

  /** The description invariant of `ExtendWith` survives one more VIN. */
  lemma ExtendStep(entities: seq<SensorEntity>, before: seq<SensorEntity>, after: seq<SensorEntity>,
                   kind: SensorKind, order: seq<string>, byVin: map<string, Vehicle>, i: nat)
    requires i < |order| && forall k :: 0 <= k < |order| ==> order[k] in byVin
    requires Describe(before) == Describe(entities) + Tagged(kind, Having(order[..i], byVin, kind))
    requires Describe(after) == Describe(before) + (if StatOf(byVin[order[i]].stats, kind).Present? then [(kind, order[i])] else [])
    ensures Describe(after) == Describe(entities) + Tagged(kind, Having(order[..i + 1], byVin, kind))
  {
    assert order[..i + 1][..i] == order[..i];
    TaggedSnoc(kind, Having(order[..i], byVin, kind), order[i]);
  }

  /** One step of the generator: a new sensor for `vin` when its stat is present, nothing otherwise. */
  method AppendIfPresent(coordinator: VehiclesCoordinator, kind: SensorKind, vin: string, entities: seq<SensorEntity>)
    returns (result: seq<SensorEntity>)
    requires vin in coordinator.data.byVin && AllCreated(entities, coordinator)
    ensures Describe(result) == Describe(entities) + (if StatOf(coordinator.data.byVin[vin].stats, kind).Present? then [(kind, vin)] else [])
    ensures |entities| <= |result| && forall j :: 0 <= j < |entities| ==> result[j] == entities[j]
    ensures forall j :: |entities| <= j < |result| ==> fresh(result[j].Object())
    ensures AllCreated(result, coordinator)
  {
    result := entities;
    if StatOf(coordinator.data.byVin[vin].stats, kind).Present? {
      var entity := NewSensor(coordinator, kind, vin);
      AllCreatedSnoc(entities, entity, coordinator);
      DescribeSnoc(entities, entity);
      result := entities + [entity];
    }
  }

  /**
   * `entities.extend(Sensor(coordinator, vin) for vin, vehicle in coordinator.data.items()
   * if vehicle[ATTR_STATS].get(key) is not None)` for one kind of sensor.
   */
  method ExtendWith(coordinator: VehiclesCoordinator, kind: SensorKind, entities: seq<SensorEntity>)
    returns (result: seq<SensorEntity>)
    requires coordinator.Valid() && AllCreated(entities, coordinator)
    ensures Describe(result) == Describe(entities) + Tagged(kind, Having(coordinator.data.order, coordinator.data.byVin, kind))
    ensures |entities| <= |result| && forall j :: 0 <= j < |entities| ==> result[j] == entities[j]
    ensures forall j :: |entities| <= j < |result| ==> fresh(result[j].Object())
    ensures AllCreated(result, coordinator)
  {
    var order, byVin := coordinator.data.order, coordinator.data.byVin;
    result := entities;
    for i := 0 to |order|
      invariant Describe(result) == Describe(entities) + Tagged(kind, Having(order[..i], byVin, kind))
      invariant |entities| <= |result| && forall j :: 0 <= j < |entities| ==> result[j] == entities[j]
      invariant forall j :: |entities| <= j < |result| ==> fresh(result[j].Object())
      invariant AllCreated(result, coordinator)
    {
      ghost var before := result;
      result := AppendIfPresent(coordinator, kind, order[i], result);
      ExtendStep(entities, before, result, kind, order, byVin, i);
    }
    assert order[..|order|] == order;
  }

  /**
   * `async_setup_entry` of the sensor platform: exactly the planned sensors,
   * each new, bound to the coordinator and valued from its vehicle's stats.
   */
  method SetupSensors(coordinator: VehiclesCoordinator) returns (entities: seq<SensorEntity>)
    requires coordinator.Valid()
    ensures Describe(entities) == SensorPlan(coordinator.data)
    ensures forall j :: 0 <= j < |entities| ==> fresh(entities[j].Object())
    ensures AllCreated(entities, coordinator)
  {
    ghost var data := coordinator.data;
    assert Describe([]) == [];
    var odometers := ExtendWith(coordinator, OdometerKind, []);
    assert Describe(odometers) == Tagged(OdometerKind, Having(data.order, data.byVin, OdometerKind));
    var withFuel := ExtendWith(coordinator, FuelLevelKind, odometers);
    assert forall j :: 0 <= j < |withFuel| ==> fresh(withFuel[j].Object());
    entities := ExtendWith(coordinator, SpeedKind, withFuel);
  }
}
