/** The manufacturer leaf service: one query, `getManufacturerById`, over a fixed dataset. */
module ManufacturerService {
  import opened Wrappers
  import opened ArrayFind

  datatype Manufacturer = Manufacturer(id: string, name: string, country: string)

  /** The service's dataset; a `const`, so no lookup (or anything else) can change it. */
  const Manufacturers: seq<Manufacturer> := [
    Manufacturer("101", "Manufacturer A", "Country A"),
    Manufacturer("102", "Manufacturer B", "Country B")
  ]

  /** The `getManufacturerById` resolver: the first record whose id is exactly `manufacturerId`. */
  function GetManufacturerById(manufacturerId: string): (r: Option<Manufacturer>)
    ensures r.Some? ==>
      r.value.id == manufacturerId &&
      exists i :: 0 <= i < |Manufacturers| && Manufacturers[i] == r.value &&
        forall j :: 0 <= j < i ==> Manufacturers[j].id != manufacturerId
    ensures r.None? <==> forall i :: 0 <= i < |Manufacturers| ==> Manufacturers[i].id != manufacturerId
  {
    Find(Manufacturers, (m: Manufacturer) => m.id == manufacturerId)
  }

  /** Every record of the dataset is found under its own id: the ids are unique keys. */
  lemma EveryManufacturerIsFoundById(k: nat)
    requires k < |Manufacturers|
    ensures GetManufacturerById(Manufacturers[k].id) == Some(Manufacturers[k])
  {
  }
}
