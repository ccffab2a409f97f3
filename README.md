# Chained vehicle/manufacturer query gateway

A Dafny model of `chainedquery.js`, which holds three GraphQL services:

- a **vehicle service** whose one resolver, `getVehicleById`, looks a vehicle up by id in a fixed list;
- a **manufacturer service** whose one resolver, `getManufacturerById`, does the same over a fixed list of manufacturers;
- a **gateway** whose resolver, `getVehicleWithManufacturer`, queries the vehicle service, reads the vehicle's `manufacturerId`, queries the manufacturer service with it, attaches the answer as a `manufacturer` field and returns the vehicle object. Any exception in between becomes the single error `"Failed to fetch data"`.

Modules, leaves first:

- `Wrappers` (`wrappers.dfy`): `Option`, with `None` standing for `null`/`undefined`.
- `ArrayFind` (`array_find.dfy`): `Find`, the semantics of JavaScript's `Array.prototype.find`. It returns the first element that satisfies the predicate.
- `VehicleService` and `ManufacturerService`: the records, the fixed datasets as `const` sequences, and the two resolvers as pure functions.
- `Gateway` (`gateway.dfy`):
  - The two HTTP calls are injected as functions `string -> Reply<T>`, with `Reply = Found | NotFound | TransportError`.
  - `GetVehicleWithManufacturer` is the resolver as a step-by-step method. It returns the outcome and the trace of queries it sent, in order.
  - The method is proved equal to the reference definition `Expected`, and the lemmas state the resolver's properties about `Expected`.
  - `VehicleEndpoint` and `ManufacturerEndpoint` plug the two leaf resolvers in behind a reachability flag. The deployed-system lemma and the scenario lemmas use them.

The gateway's schema and its resolver disagree on one point, and the model follows the resolver. The schema declares `getVehicleWithManufacturer(vehicleId: ID!): Vehicle` as nullable (chainedquery.js:96), so an unknown vehicle id could be answered with `null`. In the resolver, the vehicle service answers `null`, and reading `vehicleData.manufacturerId` (chainedquery.js:128) then throws a `TypeError`. That happens before the second request is built. The catch turns it into `"Failed to fetch data"`. `Gateway.UnknownVehicleFailsBeforeManufacturerQuery` states this behaviour, and `Gateway.ScenarioUnknownVehicle` shows it for id `"999"`.

The datasets are `const`, so nothing can change them, and the lookups read them without change. The ids in each dataset are unique, so every record is found under its own id.

## Model

| member | source | states |
|---|---|---|
| `ArrayFind.Find` | chainedquery.js:27 | A found element satisfies the predicate and is the first element that does. `None` comes back exactly when no element satisfies it. |
| `VehicleService.GetVehicleById` | chainedquery.js:19-28 | A returned vehicle has `id == vehicleId` and is the first such record in `Vehicles`. The result is `None` exactly when no record has that id. |
| `VehicleService.EveryVehicleIsFoundById` | chainedquery.js:19-22 | Every record in `Vehicles` is returned when looked up by its own id, because the ids are unique. |
| `ManufacturerService.GetManufacturerById` | chainedquery.js:56-65 | A returned manufacturer has `id == manufacturerId` and is the first such record in `Manufacturers`. The result is `None` exactly when no record has that id. |
| `ManufacturerService.EveryManufacturerIsFoundById` | chainedquery.js:56-59 | Every record in `Manufacturers` is returned when looked up by its own id. |
| `Gateway.Attach` | chainedquery.js:138-140 | The composite keeps the vehicle record unchanged and carries the manufacturer answer beside it. Used by `Expected` and so by every gateway lemma. |
| `Gateway.VehicleEndpoint` | chainedquery.js:108-122 | Stands for the vehicle request and response extraction in front of the resolver at chainedquery.js:27. It fails in transport exactly when unreachable. A found record is a dataset vehicle with the requested id. `NotFound` comes back exactly when the service is reachable and no record has that id. Used by the deployed-system and scenario lemmas. |
| `Gateway.ManufacturerEndpoint` | chainedquery.js:125-138 | Stands for the manufacturer request and response extraction in front of the resolver at chainedquery.js:64, with the same three clauses over `Manufacturers`. Used by the deployed-system and scenario lemmas. |
| `Gateway.GetVehicleWithManufacturer` | chainedquery.js:102-145 | The step-by-step resolver's outcome and query trace equal the reference definition `Expected` for every pair of service behaviours. |
| `Gateway.QueriesAreDependentAndOrdered` | chainedquery.js:108-128 | The vehicle query goes first and carries the caller's id verbatim. The manufacturer query is sent exactly when the vehicle was found. It goes second and carries that vehicle's `manufacturerId`. No other query is sent. |
| `Gateway.ResolvedKeepsVehicleFields` | chainedquery.js:122-140 | A resolved composite comes from a found vehicle. Its `id`, `model`, `year` and `manufacturerId` are that record's. Its `manufacturer` is the record the manufacturer service returned, or `null`. |
| `Gateway.MissingManufacturerGivesPartialComposite` | chainedquery.js:136-140 | A found vehicle whose `manufacturerId` resolves to nothing still gives a resolved composite. Its vehicle fields are intact and `manufacturer` is `null`. |
| `Gateway.TransportFailureFailsClosed` | chainedquery.js:106-144 | A transport failure at either hop ends in `"Failed to fetch data"`. No vehicle-only object is returned. |
| `Gateway.UnknownVehicleFailsBeforeManufacturerQuery` | chainedquery.js:122-143 | For an unknown vehicle only the vehicle query is sent, and the call ends in `"Failed to fetch data"`. |
| `Gateway.OutcomeClassification` | chainedquery.js:141-144 | The call resolves exactly when the vehicle is found and the manufacturer hop has no transport failure. Every failure carries the one generic message. |
| `Gateway.DeployedGatewayComposesDatasets` | chainedquery.js:102-145 | Over the two leaf services, the call resolves exactly when both are reachable and the vehicle exists. The composite then holds a dataset vehicle with the requested id. Its `manufacturer` is the dataset manufacturer with id `manufacturerId`, or `null` if there is none. |
| `Gateway.ScenarioVehicleOne` | chainedquery.js:175-189 | Vehicle `"1"` resolves to `"Car A"`, 2022, with manufacturer `"101"`, `"Manufacturer A"`, `"Country A"`, after the queries `"1"` and then `"101"`. |
| `Gateway.ScenarioVehicleTwo` | chainedquery.js:21-58 | Vehicle `"2"` (the record at line 21) resolves to `"Car B"`, 2021, with manufacturer `"102"`, `"Manufacturer B"`, `"Country B"` (the record at line 58). |
| `Gateway.ScenarioUnknownVehicle` | chainedquery.js:122-143 | Vehicle `"999"` gives one query and the generic error. |

## Left out

- Server construction and `server.listen()` (process bootstrap) and the `gql` schema declarations are not modelled. Because of that, the main server's schema does not drop `manufacturerId` from the client's answer: the model's composite keeps it, as the JavaScript object does.
- The HTTP calls through axios and the endpoint URLs are network I/O. Each hop is an injected function, and `TransportError` covers a rejected request, an error status, and a response without a `data.data` body.
- The async/await scheduling is not modelled. The resolver is a sequential method, and the trace stands for the order in which the awaited requests are issued.
- The textual building of the two GraphQL query strings is not modelled. The model records the id bound into each query and assumes the leaf service receives that id unchanged. This holds only for ids without `"` or `\`: the ids are pasted into a GraphQL string literal (chainedquery.js:111, 128), whose escapes the remote parser decodes and whose quotes end the literal. For example, the six characters `\u0031` would reach the vehicle resolver as `"1"`.
- `Gateway.DeployedGatewayComposesDatasets`: its `c.id == vehicleId` depends on the assumption above that the vehicle service receives `vehicleId` unchanged. For an id with escapes the real gateway can return a vehicle whose id differs from the one requested.
- `console.log` and `console.error` output is not modelled.
- The three `const` redeclarations that join the three server files in one script are not modelled. The model treats the file as three components.
- `Gateway.GetVehicleWithManufacturer`: the in-place assignment `vehicleData.manufacturer = …` becomes a new composite value built from the vehicle record. The object is local to the request, so no aliasing can be observed.
