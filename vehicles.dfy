/**
 * The vehicle records the vehicles endpoint returns, and the coordinator's
 * data: those records re-keyed by VIN in a dict that remembers insertion
 * order, as a Python dict does.
 */
module Vehicles {
  import opened Json

  /** A key of a JSON object: left out, present as null, or present with a value. */
  datatype Field<+T> = Absent | Nil | Present(value: T)

  datatype Location = Location(lat: real, lon: real)

  datatype Stats = Stats(
    odometer: Field<real>,
    fuelLevel: Field<real>,
    speed: Field<real>,
    location: Location,
    lastUpdated: string)

  datatype Vehicle = Vehicle(vin: string, nickName: string, make: string, modelName: string, stats: Stats)

  /** `stats[k]` for a key that is there: a number, or None. */
  function FieldValue(f: Field<real>): (v: Value)
    requires !f.Absent?
    ensures v == Null <==> f.Nil?
    ensures f.Present? ==> v == Num(f.value)
  {
    if f.Present? then Num(f.value) else Null
  }

  /** An ordered dict from VIN to vehicle: `order` lists the keys in insertion order. */
  datatype VehicleData = VehicleData(order: seq<string>, byVin: map<string, Vehicle>) {
    ghost predicate Valid() {
      && (forall i, j :: 0 <= i < j < |order| ==> order[i] != order[j])
      && (forall vin :: vin in byVin <==> vin in order)
    }
  }

  const NoVehicles := VehicleData([], map[])

  /** The VINs of a fetched list, duplicates included. */
  function Vins(vehicles: seq<Vehicle>): set<string> {
    set i | 0 <= i < |vehicles| :: vehicles[i].vin
  }

  /** The record at index i is the last one in the list with its VIN. */
  ghost predicate LastWithVin(vehicles: seq<Vehicle>, i: int)
    requires 0 <= i < |vehicles|
  {
    forall j :: i < j < |vehicles| ==> vehicles[j].vin != vehicles[i].vin
  }

  lemma VinsSnoc(vehicles: seq<Vehicle>)
    requires vehicles != []
    ensures Vins(vehicles) == Vins(vehicles[..|vehicles| - 1]) + {vehicles[|vehicles| - 1].vin}
  {
    var front := vehicles[..|vehicles| - 1];
    forall vin | vin in Vins(vehicles) ensures vin in Vins(front) + {vehicles[|vehicles| - 1].vin} {
      var i :| 0 <= i < |vehicles| && vehicles[i].vin == vin;
      if i < |front| { assert front[i] == vehicles[i]; }
    }
    forall vin | vin in Vins(front) ensures vin in Vins(vehicles) {
      var i :| 0 <= i < |front| && front[i].vin == vin;
      assert vehicles[i] == front[i];
    }
  }

  /**
   * `{vehicle[ATTR_VIN]: vehicle for vehicle in data}`: every VIN becomes a
   * key, each key's record carries that VIN, and a key keeps the position of
   * its first insertion (`order` only grows by keys not yet present).
   */
  function KeyByVin(vehicles: seq<Vehicle>): (d: VehicleData)
    ensures d.Valid()
    ensures d.byVin.Keys == Vins(vehicles)
    ensures forall vin :: vin in d.byVin ==> d.byVin[vin].vin == vin
    decreases |vehicles|
  {
    if vehicles == [] then NoVehicles
    else
      var last := vehicles[|vehicles| - 1];
      var d := KeyByVin(vehicles[..|vehicles| - 1]);
      VinsSnoc(vehicles);
      VehicleData(if last.vin in d.byVin then d.order else d.order + [last.vin],
                  d.byVin[last.vin := last])
  }

  /** When a VIN is repeated in the fetched list, the later record wins. */
  lemma {:induction false} LaterRecordWins(vehicles: seq<Vehicle>, i: nat)
    requires i < |vehicles| && LastWithVin(vehicles, i)
    ensures vehicles[i].vin in KeyByVin(vehicles).byVin
    ensures KeyByVin(vehicles).byVin[vehicles[i].vin] == vehicles[i]
    decreases |vehicles|
  {
    if i < |vehicles| - 1 {
      var front := vehicles[..|vehicles| - 1];
      assert front[i] == vehicles[i];
      assert LastWithVin(front, i) by {
        forall j | i < j < |front| ensures front[j].vin != front[i].vin {
          assert front[j] == vehicles[j];
        }
      }
      LaterRecordWins(front, i);
    }
  }

  /**
   * Insertion order: the keys contributed by the first n records come first,
   * in the order they had after those n records; later records only append
   * VINs not seen before.
   */
  lemma {:induction false} OrderExtendsPrefix(vehicles: seq<Vehicle>, n: nat)
    requires n <= |vehicles|
    ensures KeyByVin(vehicles[..n]).order <= KeyByVin(vehicles).order
    decreases |vehicles|
  {
    if n < |vehicles| {
      var front := vehicles[..|vehicles| - 1];
      assert front[..n] == vehicles[..n];
      OrderExtendsPrefix(front, n);
    } else {
      assert vehicles[..n] == vehicles;
    }
  }
}
