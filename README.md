# Delivery route builder: a Dafny model

This project models the route-construction core of a small logistics service: the
`buildRoute` function in `server/frer.js` and the parts it relies on. An order names a
customer by `id` and lists foods as title and quantity. For each food in turn, the
builder takes the first warehouse in the static table that stocks the title. It keeps each
warehouse once, in the order it was first picked. It then chains the warehouses into legs,
and the last leg runs to the customer. Each leg's road distance comes from a distance
resolver. The distances are added into a total, and the total is turned into a fuel cost:
8 litres per 100 km at 2.20 per litre.

Modules:

- `Wrappers` (`wrappers.dfy`): `Option` and `Result`.
- `Directory` (`directory.dfy`): the warehouse and customer records and the shipped
  tables. It also has `FirstMatch`, which models `Array.prototype.find` and is proved to
  return the lowest matching index. On top of it sit the warehouse lookup by title and
  the customer lookup by id.
- `FuelEstimator` (`fuel.dfy`): the fuel-cost formula over `real`.
- `RouteBuilder` (`route.dfy`): `BuildRoute`, with the source's two loops as the imperative
  methods `SelectWarehouses` and `ResolveLegs`, the second keeping the running total. They
  are proved against the specification function `Selection` (what the warehouse loop
  builds) and the predicate `IsRouteFor` (what the leg loop builds). Lemmas relate
  `Selection` to `Picks` (every food's warehouse, with repeats) and state what the route
  promises.
- `Scenarios` (`scenarios.dfy`): properties of the builder proved on the shipped tables.

The model's decisions:

- Warehouses are indices into the table. The source's `includes` check compares object
  identity within one array, and that is the same as comparing indices.
- The distance resolver is a total function parameter `dist: (Location, Location) -> real`.
- If the customer is not in the table and at least one warehouse was selected, the source
  reads `customer.location` on `undefined` and throws. The model returns
  `Failure(CustomerUndefined(id))` instead. If no warehouse was selected, the customer is
  never read, and the result is an empty route with total 0 and fuel cost 0.
- The code leaves out several checks an order service might be expected to make. The
  model follows the code:
  - The requested quantity is never compared with stock.
  - An unstocked food is skipped silently. It is not an error.
  - An unknown customer is not rejected before any distance is resolved.
  - A failing distance lookup is not turned into a structured error. Its catch block calls
    `calculateDistance`, which is not defined, so the ReferenceError rejects `buildRoute`
    as an uncaught exception.
  - Inventory is not decremented.

## Model

| member | source | states |
|---|---|---|
| Directory.FirstMatch | server/frer.js:87 | `find` returns the lowest index whose element satisfies the predicate. It returns None exactly when no element does. |
| Directory.FindWarehouse | server/frer.js:87 | The chosen warehouse is the lowest-index warehouse whose own entry for that exact title is present and non-zero. None means no warehouse has such an entry. The quantity is not consulted. |
| Directory.FindCustomer | server/frer.js:82 | The result is the first customer in the table whose id equals the order's `id`. None means no customer has that id. |
| Directory.FindWarehouseAsWritten | server/frer.js:87 | The lookup as JavaScript evaluates it: the lowest-index warehouse whose entry reads truthy, where a title that names an inherited `Object.prototype` member counts as stocked. None means no warehouse's entry reads truthy. |
| Directory.AsWrittenAgreesOnOrdinaryTitles | server/frer.js:87 | For every title that is not an inherited member name, the as-written lookup and the corrected lookup agree on every table. |
| Directory.PrototypeTitleSelectsFirstWarehouse | server/frer.js:87 | On the shipped table, "toString" selects warehouse 0 as written. The corrected lookup selects none. |
| FuelEstimator.FuelCost | server/frer.js:69-78 | The cost is (d/100) times the consumption rate (8) times the fuel price (2.20), that is 0.176 per km. A non-negative distance never gives a negative cost. |
| FuelEstimator.FuelCostAtZero | server/frer.js:69-78 | A distance of 0 costs 0. |
| FuelEstimator.FuelCostOfHundredKm | server/frer.js:70-76 | 100 km cost the consumption rate times the price, 17.6. |
| FuelEstimator.FuelCostMonotone | server/frer.js:69-78 | A longer distance never costs less. |
| FuelEstimator.FuelCostAdditive | server/frer.js:69-78 | The cost of d1 + d2 is the cost of d1 plus the cost of d2. |
| RouteBuilder.Picks | server/frer.js:86-88 | The reference sequence: the warehouse of each food that has one, in food order, with repeats. Every entry is a valid table index. |
| RouteBuilder.Selection | server/frer.js:86-91 | `warehousesInOrder` after the food loop. Every entry is a valid table index. |
| RouteBuilder.SelectionIsFirstOccurrences | server/frer.js:86-91 | The selection has no duplicates. It holds exactly the picked warehouses. Its entries are ordered by the position of their first pick, so the first occurrence wins and later repeats are dropped. |
| RouteBuilder.UnsuppliedFoodIsSkipped | server/frer.js:88 | A food no warehouse supplies can be inserted anywhere in an order without changing the selection, and it causes no error. |
| RouteBuilder.SelectionIgnoresQuantities | server/frer.js:87 | Two orders whose foods have the same titles in the same order select the same warehouses, whatever the quantities. |
| RouteBuilder.SelectWarehouses | server/frer.js:85-91 | The food loop, which appends each food's warehouse unless it is already listed, ends holding `Selection` of the foods. |
| RouteBuilder.ResolveLegs | server/frer.js:92-102 | The leg loop fails exactly when some warehouse was selected and the customer is missing. With no selection it gives no legs and total 0. Otherwise it gives one leg per selected warehouse, satisfying `IsRouteFor`, with the total equal to the sum of the leg distances. |
| RouteBuilder.BuildRoute | server/frer.js:81-106 | The method fails exactly when a warehouse was selected and the customer is unknown. With no selection it returns an empty route, total 0 and fuel cost 0. On success the route has one leg per selected warehouse and satisfies `IsRouteFor`: leg i leaves warehouse i, every leg but the last arrives at warehouse i+1, the last arrives at the customer, and each leg's distance is `dist` of its two ends. `totalDistance` is the sum of the leg distances, and `fuelCost` is `FuelCost(totalDistance)`. |
| RouteBuilder.RouteChains | server/frer.js:92-101 | In a route built for a selection, each leg ends where the next leg starts. |
| RouteBuilder.RouteVisitsWarehousesThenCustomer | server/frer.js:92-101 | A non-empty route passes through the selected warehouses in selection order. Its last stop is the customer. |
| RouteBuilder.RouteIsDetermined | server/frer.js:92-101 | Any two routes built for the same selection, customer and resolver are equal. |
| RouteBuilder.SumDistancesAppend | server/frer.js:96 | The total of a route split into two parts is the sum of the parts' totals. |
| RouteBuilder.TotalIsNonNegative | server/frer.js:96 | If every leg distance is non-negative, the total and its fuel cost are non-negative. |
| RouteBuilder.FuelCostIsSumOfLegCosts | server/frer.js:104 | Costing the total gives the same result as adding up the cost of each leg. |
| RouteBuilder.FuelCostIgnoresLegBreaks | server/frer.js:104 | Where a route is broken into two parts does not change its fuel cost. |
| Scenarios.CocaColaComesFromSecondWarehouse | server/frer.js:31-38 | On the shipped table, Coca-Cola is supplied by warehouse index 1, "Склад 2". |
| Scenarios.CoffeeAndWafersComeFromFirstWarehouse | server/frer.js:21-30 | On the shipped table, coffee and wafers are both supplied by warehouse index 0, "Склад 1". |
| Scenarios.FantaComesFromThirdWarehouse | server/frer.js:40-48 | On the shipped table, Fanta is supplied by warehouse index 2, "Склад 3". |
| Scenarios.CocaColaOrder | server/frer.js:81-106 | Order 1 asking for 10 Coca-Cola gives one leg from Склад 2 to Клиент 1. Its distance d is the resolver's value, the total is d, and the fuel cost is `FuelCost(d)`. |
| Scenarios.QuantityAboveStockStillSelected | server/frer.js:87 | Asking for 1000 Coca-Cola, more than the 50 in stock, still selects Склад 2. |
| Scenarios.SharedWarehouseVisitedOnce | server/frer.js:86-91 | Coffee, Fanta and wafers select [0, 2]. The warehouse shared by coffee and wafers appears once, at its first position. |
| Scenarios.UnstockedOrderFromUnknownCustomer | server/frer.js:82-105 | An order for an unstocked product from an unknown customer returns an empty route with total 0 and fuel cost 0, not an error. |
| Scenarios.StockedOrderFromUnknownCustomer | server/frer.js:94 | A stocked product ordered for an unknown customer fails with `CustomerUndefined`. |

## Left out

- HTTP, CORS and body parsing, the `/process-order` handler, the logger and `app.listen` (server/frer.js:1-18, 108-118): these are I/O plumbing.
- The OSRM request in `calculateDistanceByRoad` (server/frer.js:56-61) is left out: the URL with its lng,lat order, the HTTP call, reading `routes[0].distance`, and the conversion from metres to kilometres. It is a network client, so the model takes the resolver's kilometre result as the parameter `dist`.
- The resolver's error fallback `calculateDistance` (server/frer.js:62-64): that function is not part of this model, because it is not defined in the file. The resolver is treated as total.
- A leg whose distance cannot be resolved (server/frer.js:58-64, 95): when OSRM fails or returns no routes, the fallback throws a ReferenceError and `buildRoute` rejects. The model cannot represent a failing leg, because `dist` always gives a distance.
- `async`/`await`: the legs are resolved one after another, so the model uses a plain sequential loop.
- IEEE-754 rounding in the distance sum and the fuel formula: the model uses exact `real` arithmetic.
- JSON typing of `order.id`: the lookup uses strict equality. The model uses `int` ids, so the case where a string `"1"` fails to match the number 1 is not represented.
- Which resolver calls happen before a missing customer is detected at the last leg: the model does not record calls. It also does not model that the thrown TypeError leaves the HTTP request unanswered; it returns a `Failure` value instead.

## Findings

| source | as written | input that shows it | evidently intended | confidence | as-written member | corrected member |
|---|---|---|---|---|---|---|
| server/frer.js:87 | `w.products[food.title]` is a plain property read. It also finds members inherited from `Object.prototype` (`toString`, `constructor`, `valueOf`, …), and all of these are truthy values: functions, or `Object.prototype` itself for `__proto__`. So such a title counts as stocked by every warehouse that has no own entry for it. | Order `{id: 1, foods: [{title: "toString", quantity: 1}]}` is routed through Склад 1, which stocks no such product | a warehouse is chosen only for a title it actually stocks (an own entry) | high; not executed | Directory.PrototypeTitleSelectsFirstWarehouse | Directory.FindWarehouse |

`Directory.FindWarehouseAsWritten` models the lookup as written. The rest of the model uses
the corrected `Directory.FindWarehouse`.
