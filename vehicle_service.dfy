/** The vehicle leaf service: one query, `getVehicleById`, over a fixed dataset. */
module VehicleService {
  import opened Wrappers
  import opened ArrayFind

  datatype Vehicle = Vehicle(id: string, model: string, year: int, manufacturerId: string)

  /** The service's dataset; a `const`, so no lookup (or anything else) can change it. */
  const Vehicles: seq<Vehicle> := [
    Vehicle("1", "Car A", 2022, "101"),
    Vehicle("2", "Car B", 2021, "102")
  ]

  /** The `getVehicleById` resolver: the first record whose id is exactly `vehicleId`. */
  function GetVehicleById(vehicleId: string): (r: Option<Vehicle>)
    ensures r.Some? ==>
      r.value.id == vehicleId &&
      exists i :: 0 <= i < |Vehicles| && Vehicles[i] == r.value &&
        forall j :: 0 <= j < i ==> Vehicles[j].id != vehicleId
    ensures r.None? <==> forall i :: 0 <= i < |Vehicles| ==> Vehicles[i].id != vehicleId
  {
    Find(Vehicles, (v: Vehicle) => v.id == vehicleId)
  }

  /** Every record of the dataset is found under its own id: the ids are unique keys. */
  lemma EveryVehicleIsFoundById(k: nat)
    requires k < |Vehicles|
    ensures GetVehicleById(Vehicles[k].id) == Some(Vehicles[k])
  {
  }
}
