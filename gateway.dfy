/** The composition gateway: the `getVehicleWithManufacturer` resolver, which
    chains a vehicle query and a manufacturer query and merges their answers. */
module Gateway {
  import opened Wrappers
  import opened VehicleService
  import opened ManufacturerService

  /** What one remote query gives back: the record, a `null` answer, or a
      failure of the call itself (unreachable service, error status, or a
      response without the expected `data.data` body). */
  datatype Reply<T> = Found(record: T) | NotFound | TransportError

  /** A query the gateway sent, with the argument it bound into it. */
  datatype Call = VehicleQuery(vehicleId: string) | ManufacturerQuery(manufacturerId: string)

  /** The vehicle object the resolver returns: the fields of the vehicle
      query, plus the `manufacturer` field attached to it (`None` is `null`). */
  datatype CompositeVehicle = CompositeVehicle(
    id: string, model: string, year: int, manufacturerId: string,
    manufacturer: Option<Manufacturer>)

  /** How a resolver call ends: with the composite, or with the thrown error's message. */
  datatype Outcome = Resolved(vehicle: CompositeVehicle) | Failed(message: string)

  /** A whole gateway call: its outcome and the queries sent, in order. */
  datatype Exchange = Exchange(outcome: Outcome, calls: seq<Call>)

  /** The one error every caught exception is turned into. */
  const FetchFailed := "Failed to fetch data"

  /** The vehicle response object with `manufacturer` attached to it: the
      vehicle record is recovered unchanged from the composite, beside the
      attached answer. */
  function Attach(v: Vehicle, manufacturer: Option<Manufacturer>): (c: CompositeVehicle)
    ensures Vehicle(c.id, c.model, c.year, c.manufacturerId) == v
    ensures c.manufacturer == manufacturer
  {
    CompositeVehicle(v.id, v.model, v.year, v.manufacturerId, manufacturer)
  }

  /** Reference definition of a gateway call, by cases on what the two
      services answer.  A `null` vehicle is not a result: reading its
      `manufacturerId` throws, and the catch turns that into `FetchFailed`. */
  function Expected(vehicleId: string, vehicleHop: string -> Reply<Vehicle>,
                    manufacturerHop: string -> Reply<Manufacturer>): Exchange
  {
    match vehicleHop(vehicleId)
    case TransportError => Exchange(Failed(FetchFailed), [VehicleQuery(vehicleId)])
    case NotFound => Exchange(Failed(FetchFailed), [VehicleQuery(vehicleId)])
    case Found(v) =>
      var calls := [VehicleQuery(vehicleId), ManufacturerQuery(v.manufacturerId)];
      match manufacturerHop(v.manufacturerId)
      case TransportError => Exchange(Failed(FetchFailed), calls)
      case NotFound => Exchange(Resolved(Attach(v, None)), calls)
      case Found(m) => Exchange(Resolved(Attach(v, Some(m))), calls)
  }

  /** The resolver, step by step.  The two remote services are the injected
      `vehicleHop` and `manufacturerHop`; `calls` records every query sent. */
  method GetVehicleWithManufacturer(vehicleId: string, vehicleHop: string -> Reply<Vehicle>,
                                    manufacturerHop: string -> Reply<Manufacturer>)
    returns (outcome: Outcome, calls: seq<Call>)
    ensures Exchange(outcome, calls) == Expected(vehicleId, vehicleHop, manufacturerHop)
  {
    calls := [];
    // Each early return below stands for the resolver's catch, which turns
    // whatever was thrown into the one generic error.
    calls := calls + [VehicleQuery(vehicleId)];
    var vehicleResponse := vehicleHop(vehicleId);
    if vehicleResponse.TransportError? {
      // the awaited request rejects: caught below
      outcome := Failed(FetchFailed);
      return;
    }
    var vehicleData: Option<Vehicle> := if vehicleResponse.Found? then Some(vehicleResponse.record) else None;
    if vehicleData.None? {
      // reading `manufacturerId` of `null` throws before the second request: caught below
      outcome := Failed(FetchFailed);
      return;
    }
    var manufacturerId := vehicleData.value.manufacturerId;
    calls := calls + [ManufacturerQuery(manufacturerId)];
    var manufacturerResponse := manufacturerHop(manufacturerId);
    if manufacturerResponse.TransportError? {
      // the second request rejects: caught below, and the vehicle data is dropped
      outcome := Failed(FetchFailed);
      return;
    }
    var manufacturer: Option<Manufacturer> :=
      if manufacturerResponse.Found? then Some(manufacturerResponse.record) else None;
    outcome := Resolved(Attach(vehicleData.value, manufacturer));
  }

  /** The vehicle query is always sent first, with the caller's id verbatim;
      the manufacturer query is sent exactly when the vehicle was found, and
      second, with that vehicle's `manufacturerId`.  No other query is sent. */
  lemma QueriesAreDependentAndOrdered(vehicleId: string, vehicleHop: string -> Reply<Vehicle>,
                                      manufacturerHop: string -> Reply<Manufacturer>)
    ensures var e := Expected(vehicleId, vehicleHop, manufacturerHop);
      1 <= |e.calls| <= 2 && e.calls[0] == VehicleQuery(vehicleId) &&
      (|e.calls| == 2 <==> vehicleHop(vehicleId).Found?) &&
      (|e.calls| == 2 ==> e.calls[1] == ManufacturerQuery(vehicleHop(vehicleId).record.manufacturerId))
  {
  }

  /** A resolved composite carries the vehicle record's fields unchanged and
      whatever the manufacturer service answered for its `manufacturerId`. */
  lemma ResolvedKeepsVehicleFields(vehicleId: string, vehicleHop: string -> Reply<Vehicle>,
                                   manufacturerHop: string -> Reply<Manufacturer>)
    ensures var e := Expected(vehicleId, vehicleHop, manufacturerHop);
      e.outcome.Resolved? ==>
        vehicleHop(vehicleId).Found? &&
        var v := vehicleHop(vehicleId).record;
        var c := e.outcome.vehicle;
        c.id == v.id && c.model == v.model && c.year == v.year && c.manufacturerId == v.manufacturerId &&
        c.manufacturer == (match manufacturerHop(v.manufacturerId)
                           case Found(m) => Some(m)
                           case _ => None)
  {
  }

  /** A dangling `manufacturerId` is not a failure: the call resolves with
      the vehicle fields intact and `manufacturer` set to `null`. */
  lemma MissingManufacturerGivesPartialComposite(vehicleId: string, vehicleHop: string -> Reply<Vehicle>,
                                                 manufacturerHop: string -> Reply<Manufacturer>, v: Vehicle)
    requires vehicleHop(vehicleId) == Found(v)
    requires manufacturerHop(v.manufacturerId) == NotFound
    ensures Expected(vehicleId, vehicleHop, manufacturerHop).outcome ==
      Resolved(CompositeVehicle(v.id, v.model, v.year, v.manufacturerId, None))
  {
  }

  /** Fail-closed: a transport failure at either hop ends the call with the
      generic error, and no vehicle-only object is returned. */
  lemma TransportFailureFailsClosed(vehicleId: string, vehicleHop: string -> Reply<Vehicle>,
                                    manufacturerHop: string -> Reply<Manufacturer>)
    requires vehicleHop(vehicleId).TransportError? ||
             (vehicleHop(vehicleId).Found? &&
              manufacturerHop(vehicleHop(vehicleId).record.manufacturerId).TransportError?)
    ensures Expected(vehicleId, vehicleHop, manufacturerHop).outcome == Failed(FetchFailed)
  {
  }

  /** An unknown vehicle id is not answered with `null`: the manufacturer
      service is never contacted and the call ends in the generic error. */
  lemma UnknownVehicleFailsBeforeManufacturerQuery(vehicleId: string, vehicleHop: string -> Reply<Vehicle>,
                                                   manufacturerHop: string -> Reply<Manufacturer>)
    requires vehicleHop(vehicleId).NotFound?
    ensures Expected(vehicleId, vehicleHop, manufacturerHop) ==
      Exchange(Failed(FetchFailed), [VehicleQuery(vehicleId)])
  {
  }

  /** The call resolves exactly when the vehicle is found and the
      manufacturer hop completes; every failure carries the one generic message. */
  lemma OutcomeClassification(vehicleId: string, vehicleHop: string -> Reply<Vehicle>,
                              manufacturerHop: string -> Reply<Manufacturer>)
    ensures var e := Expected(vehicleId, vehicleHop, manufacturerHop);
      (e.outcome.Resolved? <==>
        vehicleHop(vehicleId).Found? &&
        !manufacturerHop(vehicleHop(vehicleId).record.manufacturerId).TransportError?) &&
      (e.outcome.Failed? ==> e.outcome.message == FetchFailed)
  {
  }

  /** The vehicle service as reached over the network: `reachable` stands
      for the transport, the answer is the leaf resolver's. */
  function VehicleEndpoint(reachable: bool, vehicleId: string): (r: Reply<Vehicle>)
    ensures r.TransportError? <==> !reachable
    ensures r.Found? ==> r.record.id == vehicleId && r.record in Vehicles
    ensures r.NotFound? <==>
      reachable && forall i :: 0 <= i < |Vehicles| ==> Vehicles[i].id != vehicleId
  {
    if !reachable then TransportError
    else match GetVehicleById(vehicleId)
         case Some(v) => Found(v)
         case None => NotFound
  }

  /** The manufacturer service as reached over the network. */
  function ManufacturerEndpoint(reachable: bool, manufacturerId: string): (r: Reply<Manufacturer>)
    ensures r.TransportError? <==> !reachable
    ensures r.Found? ==> r.record.id == manufacturerId && r.record in Manufacturers
    ensures r.NotFound? <==>
      reachable && forall i :: 0 <= i < |Manufacturers| ==> Manufacturers[i].id != manufacturerId
  {
    if !reachable then TransportError
    else match GetManufacturerById(manufacturerId)
         case Some(m) => Found(m)
         case None => NotFound
  }

  /** The deployed gateway over the two leaf services: it resolves exactly
      when both services are reachable and the vehicle exists; the composite
      then holds a dataset vehicle under the requested id, and its
      `manufacturer` is the dataset manufacturer whose id is the vehicle's
      `manufacturerId`, or `null` when there is none. */
  lemma DeployedGatewayComposesDatasets(vehicleId: string, vehicleUp: bool, manufacturerUp: bool)
    ensures var e := Expected(vehicleId, id => VehicleEndpoint(vehicleUp, id),
                              id => ManufacturerEndpoint(manufacturerUp, id));
      (e.outcome.Resolved? <==> vehicleUp && manufacturerUp && GetVehicleById(vehicleId).Some?) &&
      (e.outcome.Resolved? ==>
        var c := e.outcome.vehicle;
        c.id == vehicleId &&
        Vehicle(c.id, c.model, c.year, c.manufacturerId) in Vehicles &&
        c.manufacturer == GetManufacturerById(c.manufacturerId) &&
        (c.manufacturer.Some? ==> c.manufacturer.value.id == c.manufacturerId &&
                                  c.manufacturer.value in Manufacturers))
  {
  }

  /** Vehicle "1" resolves to "Car A" (2022) made by "Manufacturer A" of "Country A". */
  lemma ScenarioVehicleOne()
    ensures Expected("1", id => VehicleEndpoint(true, id), id => ManufacturerEndpoint(true, id)) ==
      Exchange(Resolved(CompositeVehicle("1", "Car A", 2022, "101",
                                         Some(Manufacturer("101", "Manufacturer A", "Country A")))),
               [VehicleQuery("1"), ManufacturerQuery("101")])
  {
  }

  /** Vehicle "2" resolves with manufacturer "102", "Manufacturer B", "Country B". */
  lemma ScenarioVehicleTwo()
    ensures Expected("2", id => VehicleEndpoint(true, id), id => ManufacturerEndpoint(true, id)) ==
      Exchange(Resolved(CompositeVehicle("2", "Car B", 2021, "102",
                                         Some(Manufacturer("102", "Manufacturer B", "Country B")))),
               [VehicleQuery("2"), ManufacturerQuery("102")])
  {
  }

  /** Vehicle "999" is unknown: one query, no manufacturer query, the generic error. */
  lemma ScenarioUnknownVehicle()
    ensures Expected("999", id => VehicleEndpoint(true, id), id => ManufacturerEndpoint(true, id)) ==
      Exchange(Failed(FetchFailed), [VehicleQuery("999")])
  {
  }
}
