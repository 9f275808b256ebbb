/**
 * The route builder proved on the service's own static tables
 * (server/frer.js:20-53): what the shipped directory gives for a few orders.
 */
module Scenarios {
  import opened Wrappers
  import opened Directory
  import opened FuelEstimator
  import opened RouteBuilder

  const Coffee: string := "Кофе молотый «Dallmayr» Prodomo"
  const Wafers: string := "Вафли «Спартак» Черноморские"
  const CocaCola: string := "Напиток газированный «Coca-Cola»"
  const Fanta: string := "Напиток газированный «Fanta»"

  /** Coca-Cola is stocked only by the second warehouse ("Склад 2"). */
  lemma CocaColaComesFromSecondWarehouse()
    ensures FindWarehouse(Warehouses, CocaCola) == Some(1)
  {
  }

  /** A single Coca-Cola line over the shipped tables becomes one leg, Склад 2 to Клиент 1. */
  method CocaColaOrder(dist: Distance) returns (r: Result<RouteResult, RouteError>)
    ensures var d := dist(Location(53.906, 27.545), Location(53.901, 27.558));
      r == Success(RouteResult(
        [Leg(Stop("Склад 2", Location(53.906, 27.545)), Stop("Клиент 1", Location(53.901, 27.558)), d)],
        d, FuelCost(d)))
  {
    var order := Order(1, [Food(CocaCola, 10)]);
    CocaColaComesFromSecondWarehouse();
    assert order.foods[..0] == [];
    assert Selection(Warehouses, order.foods) == [1];
    assert FindCustomer(Customers, 1) == Some(Customers[0]);
    r := BuildRoute(Warehouses, Customers, order, dist);
    var route := r.value.route;
    assert route[0].from == WarehouseStop(Warehouses[1]);
    assert route[0].to == CustomerStop(Customers[0]);
    assert route == [route[0]];
  }

  /** Asking for more Coca-Cola than is stocked still routes through Склад 2: quantities are not checked. */
  lemma QuantityAboveStockStillSelected()
    ensures Selection(Warehouses, [Food(CocaCola, 1000)]) == [1]
    ensures Warehouses[1].products[CocaCola] < 1000
  {
  }

  /** Coffee and wafers are both stocked by the first warehouse ("Склад 1"). */
  lemma CoffeeAndWafersComeFromFirstWarehouse()
    ensures FindWarehouse(Warehouses, Coffee) == Some(0)
    ensures FindWarehouse(Warehouses, Wafers) == Some(0)
  {
  }

  /** Fanta is stocked only by the third warehouse ("Склад 3"). */
  lemma FantaComesFromThirdWarehouse()
    ensures FindWarehouse(Warehouses, Fanta) == Some(2)
  {
  }

  /** A three-food order runs the warehouse loop three times. */
  lemma SelectionOfThree(ws: seq<Warehouse>, f0: Food, f1: Food, f2: Food)
    ensures Selection(ws, [f0, f1, f2]) == Visit(ws, Visit(ws, Visit(ws, [], f0), f1), f2)
  {
    SelectionSnoc(ws, [], f0);
    assert [] + [f0] == [f0];
    SelectionSnoc(ws, [f0], f1);
    assert [f0] + [f1] == [f0, f1];
    SelectionSnoc(ws, [f0, f1], f2);
    assert [f0, f1] + [f2] == [f0, f1, f2];
  }

  /** Coffee and wafers share the first warehouse, which is visited once, before the Fanta warehouse. */
  lemma SharedWarehouseVisitedOnce()
    ensures Selection(Warehouses, [Food(Coffee, 1), Food(Fanta, 1), Food(Wafers, 1)]) == [0, 2]
  {
    CoffeeAndWafersComeFromFirstWarehouse();
    FantaComesFromThirdWarehouse();
    SelectionOfThree(Warehouses, Food(Coffee, 1), Food(Fanta, 1), Food(Wafers, 1));
    assert Visit(Warehouses, [], Food(Coffee, 1)) == [0];
    assert Visit(Warehouses, [0], Food(Fanta, 1)) == [0, 2];
  }

  /** An order for a product nobody stocks, from an unknown customer, yields an empty route and no error. */
  method UnstockedOrderFromUnknownCustomer(dist: Distance) returns (r: Result<RouteResult, RouteError>)
    ensures r == Success(RouteResult([], 0.0, 0.0))
  {
    var order := Order(7, [Food("Pepsi", 1)]);
    assert FindWarehouse(Warehouses, "Pepsi") == None by {
      assert "Pepsi" !in Warehouses[0].products;
      assert "Pepsi" !in Warehouses[1].products;
      assert "Pepsi" !in Warehouses[2].products;
    }
    assert order.foods[..0] == [];
    r := BuildRoute(Warehouses, Customers, order, dist);
  }

  /** A stocked product ordered for an unknown customer fails at the leg to the customer. */
  method StockedOrderFromUnknownCustomer(dist: Distance) returns (r: Result<RouteResult, RouteError>)
    ensures r == Failure(CustomerUndefined(2))
  {
    var order := Order(2, [Food(CocaCola, 1)]);
    CocaColaComesFromSecondWarehouse();
    assert order.foods[..0] == [];
    assert FindCustomer(Customers, 2) == None;
    r := BuildRoute(Warehouses, Customers, order, dist);
  }
}
