/**
 * The route builder (server/frer.js:81-106): pick a warehouse for every food
 * of an order, keep each warehouse once in first-selected order, chain the
 * warehouses into legs that end at the customer, resolve every leg's road
 * distance, and total the distances and the fuel cost.
 *
 * The road-distance resolver is an injected total function; its network
 * call and its error fallback are not part of this model.
 */
module RouteBuilder {
  import opened Wrappers
  import opened Directory
  import opened FuelEstimator

  /** A routable point: a name and a location. */
  datatype Stop = Stop(name: string, location: Location)

  /** One directed segment of the route with its resolved road distance. */
  datatype Leg = Leg(from: Stop, to: Stop, distance: real)

  datatype RouteResult = RouteResult(route: seq<Leg>, totalDistance: real, fuelCost: real)

  /** The last leg reads `customer.location` while the order's customer is missing from the table. */
  datatype RouteError = CustomerUndefined(orderId: int)

  /** The road-distance resolver: kilometres between two locations. */
  type Distance = (Location, Location) -> real

  function WarehouseStop(w: Warehouse): Stop
  {
    Stop(w.name, w.location)
  }

  function CustomerStop(c: Customer): Stop
  {
    Stop(c.name, c.location)
  }

  predicate ValidIndices(ws: seq<Warehouse>, sel: seq<nat>)
  {
    forall k :: 0 <= k < |sel| ==> sel[k] < |ws|
  }

  predicate NoDuplicates<T(==)>(s: seq<T>)
  {
    forall p, q :: 0 <= p < q < |s| ==> s[p] != s[q]
  }

  /** The position of the first occurrence of `x` in `s`. */
  function IndexOf<T(==)>(s: seq<T>, x: T): (k: nat)
    requires x in s
    ensures k < |s| && s[k] == x
    ensures forall j :: 0 <= j < k ==> s[j] != x
  {
    if s[0] == x then 0 else 1 + IndexOf(s[1..], x)
  }

  // ---------------------------------------------------------------------
  // Warehouse selection (server/frer.js:85-91)
  // ---------------------------------------------------------------------

  /**
   * The warehouse chosen for each food that has a supplier, in food order,
   * repeats kept: the reference the selection is characterised against.
   */
  function Picks(ws: seq<Warehouse>, foods: seq<Food>): (p: seq<nat>)
    ensures ValidIndices(ws, p)
    ensures |p| <= |foods|
  {
    if foods == [] then []
    else
      var rest := Picks(ws, foods[..|foods| - 1]);
      match FindWarehouse(ws, foods[|foods| - 1].title)
      case Some(i) => rest + [i]
      case None => rest
  }

  /**
   * `warehousesInOrder` once every food has been looked at: a warehouse is
   * appended when it is picked and not already present.
   */
  function Selection(ws: seq<Warehouse>, foods: seq<Food>): (sel: seq<nat>)
    ensures ValidIndices(ws, sel)
  {
    if foods == [] then [] else Visit(ws, Selection(ws, foods[..|foods| - 1]), foods[|foods| - 1])
  }

  /** One step of the warehouse loop: the food's warehouse is appended unless it is already listed. */
  function Visit(ws: seq<Warehouse>, acc: seq<nat>, f: Food): seq<nat>
  {
    match FindWarehouse(ws, f.title)
    case Some(i) => if i in acc then acc else acc + [i]
    case None => acc
  }

  lemma SelectionSnoc(ws: seq<Warehouse>, foods: seq<Food>, f: Food)
    ensures Selection(ws, foods + [f]) == Visit(ws, Selection(ws, foods), f)
  {
  }

  /** Extending a sequence at its end keeps the first occurrence of what it already held. */
  lemma IndexOfAppend<T>(s: seq<T>, y: T, x: T)
    requires x in s
    ensures IndexOf(s + [y], x) == IndexOf(s, x)
  {
    assert forall j :: 0 <= j < |s| ==> (s + [y])[j] == s[j];
  }

  /**
   * The selection holds no warehouse twice, holds exactly the picked
   * warehouses, and lists them in the order of their first pick.
   */
  lemma {:induction false} SelectionIsFirstOccurrences(ws: seq<Warehouse>, foods: seq<Food>)
    ensures NoDuplicates(Selection(ws, foods))
    ensures forall x :: x in Selection(ws, foods) <==> x in Picks(ws, foods)
    ensures forall p, q :: 0 <= p < q < |Selection(ws, foods)| ==>
      IndexOf(Picks(ws, foods), Selection(ws, foods)[p]) < IndexOf(Picks(ws, foods), Selection(ws, foods)[q])
  {
    if foods != [] {
      var init := foods[..|foods| - 1];
      SelectionIsFirstOccurrences(ws, init);
      var acc, rest := Selection(ws, init), Picks(ws, init);
      match FindWarehouse(ws, foods[|foods| - 1].title)
      case None =>
      case Some(i) =>
        assert Picks(ws, foods) == rest + [i];
        forall x | x in rest
          ensures IndexOf(rest + [i], x) == IndexOf(rest, x)
        {
          IndexOfAppend(rest, i, x);
        }
        if i !in acc {
          assert Selection(ws, foods) == acc + [i];
          assert IndexOf(rest + [i], i) == |rest| by {
            assert (rest + [i])[|rest|] == i;
          }
        }
    }
  }

  /** A food that no warehouse supplies changes nothing, wherever it stands in the order. */
  lemma {:induction false} UnsuppliedFoodIsSkipped(ws: seq<Warehouse>, before: seq<Food>, f: Food, after: seq<Food>)
    requires FindWarehouse(ws, f.title).None?
    ensures Selection(ws, before + [f] + after) == Selection(ws, before + after)
  {
    if after == [] {
      SelectionSnoc(ws, before, f);
      assert before + [f] + after == before + [f];
      assert before + after == before;
    } else {
      var init, g := after[..|after| - 1], after[|after| - 1];
      UnsuppliedFoodIsSkipped(ws, before, f, init);
      assert before + [f] + after == (before + [f] + init) + [g];
      assert before + after == (before + init) + [g];
      SelectionSnoc(ws, before + [f] + init, g);
      SelectionSnoc(ws, before + init, g);
    }
  }

  /** Only the titles of the foods matter; the requested quantities play no part. */
  lemma {:induction false} SelectionIgnoresQuantities(ws: seq<Warehouse>, foods: seq<Food>, foods': seq<Food>)
    requires |foods| == |foods'|
    requires forall k :: 0 <= k < |foods| ==> foods[k].title == foods'[k].title
    ensures Selection(ws, foods) == Selection(ws, foods')
  {
    if foods != [] {
      SelectionIgnoresQuantities(ws, foods[..|foods| - 1], foods'[..|foods'| - 1]);
    }
  }

  // ---------------------------------------------------------------------
  // Legs and distances (server/frer.js:92-105)
  // ---------------------------------------------------------------------

  /**
   * `route` visits the selected warehouses in order and ends at customer `c`:
   * one leg per selected warehouse, leg i leaving warehouse i, every leg but
   * the last arriving at warehouse i + 1, the last arriving at the customer,
   * and each leg carrying the resolver's distance between its two ends.
   */
  predicate IsRouteFor(route: seq<Leg>, ws: seq<Warehouse>, sel: seq<nat>, c: Customer, dist: Distance)
    requires ValidIndices(ws, sel)
  {
    && |route| == |sel|
    && (forall i :: 0 <= i < |route| ==> route[i].from == WarehouseStop(ws[sel[i]]))
    && (forall i :: 0 <= i < |route| - 1 ==> route[i].to == WarehouseStop(ws[sel[i + 1]]))
    && (|route| > 0 ==> route[|route| - 1].to == CustomerStop(c))
    && (forall i :: 0 <= i < |route| ==> route[i].distance == dist(route[i].from.location, route[i].to.location))
  }

  /** The distances of the legs, added up in route order. */
  function SumDistances(legs: seq<Leg>): real
  {
    if legs == [] then 0.0 else SumDistances(legs[..|legs| - 1]) + legs[|legs| - 1].distance
  }

  /** The fuel cost of each leg, added up. */
  function SumLegCosts(legs: seq<Leg>): real
  {
    if legs == [] then 0.0 else SumLegCosts(legs[..|legs| - 1]) + FuelCost(legs[|legs| - 1].distance)
  }

  /** The warehouse loop of `buildRoute`: append each food's warehouse unless it is already listed. */
  method SelectWarehouses(ws: seq<Warehouse>, foods: seq<Food>) returns (warehousesInOrder: seq<nat>)
    ensures warehousesInOrder == Selection(ws, foods)
  {
    warehousesInOrder := [];
    for k := 0 to |foods|
      invariant warehousesInOrder == Selection(ws, foods[..k])
    {
      assert foods[..k + 1] == foods[..k] + [foods[k]];
      SelectionSnoc(ws, foods[..k], foods[k]);
      var warehouse := FindWarehouse(ws, foods[k].title);
      if warehouse.Some? && warehouse.value !in warehousesInOrder {
        warehousesInOrder := warehousesInOrder + [warehouse.value];
      }
    }
    assert foods[..|foods|] == foods;
  }

  /**
   * The leg loop of `buildRoute`: one leg from each selected warehouse to the
   * next, the last one to the customer, each distance added to the total.
   * `ok` is false when the last leg needs the customer and there is none; the
   * legs resolved before that point are then discarded by the caller.
   */
  method ResolveLegs(ws: seq<Warehouse>, warehousesInOrder: seq<nat>, customer: Option<Customer>, dist: Distance)
    returns (route: seq<Leg>, totalDistance: real, ok: bool)
    requires ValidIndices(ws, warehousesInOrder)
    ensures ok <==> warehousesInOrder == [] || customer.Some?
    ensures warehousesInOrder == [] ==> route == [] && totalDistance == 0.0
    ensures ok ==> |route| == |warehousesInOrder| && totalDistance == SumDistances(route)
    ensures ok && customer.Some? ==> IsRouteFor(route, ws, warehousesInOrder, customer.value, dist)
  {
    totalDistance := 0.0;
    route := [];
    var n := |warehousesInOrder|;
    for i := 0 to n
      invariant |route| == i
      invariant customer.None? ==> i == 0 || i < n
      invariant forall j :: 0 <= j < i ==> route[j].from == WarehouseStop(ws[warehousesInOrder[j]])
      invariant forall j :: 0 <= j < i && j < n - 1 ==> route[j].to == WarehouseStop(ws[warehousesInOrder[j + 1]])
      invariant i == n && n > 0 ==> customer.Some? && route[n - 1].to == CustomerStop(customer.value)
      invariant forall j :: 0 <= j < i ==> route[j].distance == dist(route[j].from.location, route[j].to.location)
      invariant totalDistance == SumDistances(route)
    {
      var fromWarehouse := ws[warehousesInOrder[i]];
      var toStop: Stop;
      if i == n - 1 {
        if customer.None? {
          ok := false;
          return;
        }
        toStop := CustomerStop(customer.value);
      } else {
        toStop := WarehouseStop(ws[warehousesInOrder[i + 1]]);
      }
      var distance := dist(fromWarehouse.location, toStop.location);
      totalDistance := totalDistance + distance;
      assert (route + [Leg(WarehouseStop(fromWarehouse), toStop, distance)])[..i] == route;
      route := route + [Leg(WarehouseStop(fromWarehouse), toStop, distance)];
    }
    ok := true;
  }

  /**
   * `buildRoute`: the warehouse loop, the leg loop and the fuel cost. With no
   * selected warehouse the customer is never read and the route is empty;
   * otherwise an unknown customer fails at the last leg.
   */
  method BuildRoute(ws: seq<Warehouse>, cs: seq<Customer>, order: Order, dist: Distance)
    returns (r: Result<RouteResult, RouteError>)
    ensures r.Failure? <==> |Selection(ws, order.foods)| > 0 && FindCustomer(cs, order.id).None?
    ensures r.Failure? ==> r.error == CustomerUndefined(order.id)
    ensures Selection(ws, order.foods) == [] ==> r == Success(RouteResult([], 0.0, 0.0))
    ensures r.Success? ==> |r.value.route| == |Selection(ws, order.foods)|
    ensures r.Success? && FindCustomer(cs, order.id).Some? ==>
      IsRouteFor(r.value.route, ws, Selection(ws, order.foods), FindCustomer(cs, order.id).value, dist)
    ensures r.Success? ==> r.value.totalDistance == SumDistances(r.value.route)
    ensures r.Success? ==> r.value.fuelCost == FuelCost(r.value.totalDistance)
  {
    var customer := FindCustomer(cs, order.id);
    var warehousesInOrder := SelectWarehouses(ws, order.foods);
    var route, totalDistance, ok := ResolveLegs(ws, warehousesInOrder, customer, dist);
    if !ok {
      return Failure(CustomerUndefined(order.id));
    }
    var fuelCost := FuelCost(totalDistance);
    r := Success(RouteResult(route, totalDistance, fuelCost));
  }

  // ---------------------------------------------------------------------
  // Properties of routes
  // ---------------------------------------------------------------------

  /** Consecutive legs meet: each leg ends where the next one starts. */
  lemma RouteChains(route: seq<Leg>, ws: seq<Warehouse>, sel: seq<nat>, c: Customer, dist: Distance)
    requires ValidIndices(ws, sel) && IsRouteFor(route, ws, sel, c, dist)
    ensures forall i :: 0 <= i < |route| - 1 ==> route[i].to == route[i + 1].from
  {
  }

  /** The stops a route passes through, in order: every leg's start, then the last leg's end. */
  function VisitedStops(route: seq<Leg>): (stops: seq<Stop>)
    ensures |stops| == if route == [] then 0 else |route| + 1
  {
    if route == [] then [] else [route[0].from] + seq(|route|, i requires 0 <= i < |route| => route[i].to)
  }

  /** The selected warehouses in order, as stops. */
  function WarehouseStops(ws: seq<Warehouse>, sel: seq<nat>): (stops: seq<Stop>)
    requires ValidIndices(ws, sel)
    ensures |stops| == |sel|
  {
    seq(|sel|, k requires 0 <= k < |sel| => WarehouseStop(ws[sel[k]]))
  }

  /** A route with at least one leg visits the selected warehouses in order and then the customer. */
  lemma RouteVisitsWarehousesThenCustomer(route: seq<Leg>, ws: seq<Warehouse>, sel: seq<nat>, c: Customer, dist: Distance)
    requires ValidIndices(ws, sel) && IsRouteFor(route, ws, sel, c, dist) && |sel| > 0
    ensures VisitedStops(route) == WarehouseStops(ws, sel) + [CustomerStop(c)]
  {
    var lhs, rhs := VisitedStops(route), WarehouseStops(ws, sel) + [CustomerStop(c)];
    forall k | 0 <= k < |lhs|
      ensures lhs[k] == rhs[k]
    {
      if 0 < k < |sel| {
        assert lhs[k] == route[k - 1].to;
      } else if k == |sel| {
        assert lhs[k] == route[|route| - 1].to;
      }
    }
  }

  /** The route over a given selection and customer is determined: two such routes are equal. */
  lemma RouteIsDetermined(r1: seq<Leg>, r2: seq<Leg>, ws: seq<Warehouse>, sel: seq<nat>, c: Customer, dist: Distance)
    requires ValidIndices(ws, sel)
    requires IsRouteFor(r1, ws, sel, c, dist) && IsRouteFor(r2, ws, sel, c, dist)
    ensures r1 == r2
  {
  }

  lemma {:induction false} SumDistancesAppend(a: seq<Leg>, b: seq<Leg>)
    ensures SumDistances(a + b) == SumDistances(a) + SumDistances(b)
  {
    if b == [] {
      assert a + b == a;
    } else {
      SumDistancesAppend(a, b[..|b| - 1]);
      assert (a + b)[..|a + b| - 1] == a + b[..|b| - 1];
    }
  }

  /** With non-negative leg distances the total, and so the fuel cost, is non-negative. */
  lemma {:induction false} TotalIsNonNegative(legs: seq<Leg>)
    requires forall i :: 0 <= i < |legs| ==> 0.0 <= legs[i].distance
    ensures 0.0 <= SumDistances(legs) && 0.0 <= FuelCost(SumDistances(legs))
  {
    if legs != [] {
      TotalIsNonNegative(legs[..|legs| - 1]);
    }
  }

  /** Costing the total equals adding up the cost of every leg. */
  lemma {:induction false} FuelCostIsSumOfLegCosts(legs: seq<Leg>)
    ensures FuelCost(SumDistances(legs)) == SumLegCosts(legs)
  {
    if legs != [] {
      FuelCostIsSumOfLegCosts(legs[..|legs| - 1]);
      FuelCostAdditive(SumDistances(legs[..|legs| - 1]), legs[|legs| - 1].distance);
    }
  }

  /** Where a route is split into two parts does not change its fuel cost. */
  lemma FuelCostIgnoresLegBreaks(a: seq<Leg>, b: seq<Leg>)
    ensures FuelCost(SumDistances(a + b)) == FuelCost(SumDistances(a)) + FuelCost(SumDistances(b))
  {
    SumDistancesAppend(a, b);
  }
}
