/**
 * The inventory directory of the logistics service: the static warehouse and
 * customer tables and the two lookups the route builder performs on them
 * (server/frer.js:20-53, 82, 87).
 */
module Directory {
  import opened Wrappers

  /** A geographic position (latitude, longitude). */
  datatype Location = Location(lat: real, lng: real)

  /** A warehouse record: product title -> stocked quantity. */
  datatype Warehouse = Warehouse(id: int, name: string, location: Location, products: map<string, int>)

  datatype Customer = Customer(id: int, name: string, location: Location)

  /** One line item of an order: a product title and the requested quantity. */
  datatype Food = Food(title: string, quantity: int)

  /** An order as the route builder reads it: the customer is looked up by `id`. */
  datatype Order = Order(id: int, foods: seq<Food>)

  /** The static warehouse table, in its declared order. */
  const Warehouses: seq<Warehouse> := [
    Warehouse(1, "Склад 1", Location(53.9045, 27.559),
      map["Кофе молотый «Dallmayr» Prodomo" := 10,
          "Вафли «Спартак» Черноморские" := 20,
          "Крекер «Белогорье» Cristo Twisto" := 15]),
    Warehouse(2, "Склад 2", Location(53.906, 27.545),
      map["Мармелад жевательный «Бон Пари»" := 30,
          "Напиток газированный «Coca-Cola»" := 50]),
    Warehouse(3, "Склад 3", Location(53.91, 27.557),
      map["Набор конфет «Raffaello»" := 20,
          "Напиток газированный «Fanta»" := 40])
  ]

  /** The static customer table. */
  const Customers: seq<Customer> := [
    Customer(1, "Клиент 1", Location(53.901, 27.558))
  ]

  /**
   * Array.prototype.find, reporting the position it stops at: the lowest
   * index whose element satisfies `p`, or None when no element does.
   */
  function FirstMatch<T>(s: seq<T>, p: T -> bool): (r: Option<nat>)
    ensures r.Some? ==> r.value < |s| && p(s[r.value])
    ensures r.Some? ==> forall j :: 0 <= j < r.value ==> !p(s[j])
    ensures r.None? <==> forall j :: 0 <= j < |s| ==> !p(s[j])
  {
    if s == [] then None
    else if p(s[0]) then Some(0)
    else
      match FirstMatch(s[1..], p)
      case Some(k) => Some(k + 1)
      case None => None
  }

  /**
   * A warehouse supplies a title when its own product entry for exactly that
   * title is truthy, i.e. present and non-zero. The requested quantity is
   * not consulted.
   */
  predicate Supplies(w: Warehouse, title: string)
  {
    title in w.products && w.products[title] != 0
  }

  /** The warehouse (as an index into `ws`) chosen for a food title. */
  function FindWarehouse(ws: seq<Warehouse>, title: string): (r: Option<nat>)
    ensures r.Some? ==> r.value < |ws| && Supplies(ws[r.value], title)
    ensures r.Some? ==> forall j :: 0 <= j < r.value ==> !Supplies(ws[j], title)
    ensures r.None? <==> forall j :: 0 <= j < |ws| ==> !Supplies(ws[j], title)
  {
    FirstMatch(ws, (w: Warehouse) => Supplies(w, title))
  }

  /** The first customer whose id is strictly equal to `id`. */
  function FindCustomer(cs: seq<Customer>, id: int): (r: Option<Customer>)
    ensures r.Some? ==> r.value.id == id
    ensures r.Some? ==> exists k :: 0 <= k < |cs| && cs[k] == r.value && forall j :: 0 <= j < k ==> cs[j].id != id
    ensures r.None? <==> forall j :: 0 <= j < |cs| ==> cs[j].id != id
  {
    match FirstMatch(cs, (c: Customer) => c.id == id)
    case Some(k) => Some(cs[k])
    case None => None
  }

  // ---------------------------------------------------------------------
  // The lookup as written: a JavaScript property read also finds the members
  // every object inherits from Object.prototype, and all of them are truthy.
  // ---------------------------------------------------------------------

  /** The property names every plain JavaScript object inherits; each reads as a truthy value (a function, or Object.prototype itself for `__proto__`). */
  const ObjectPrototypeNames: set<string> := {
    "constructor", "__proto__", "hasOwnProperty", "isPrototypeOf",
    "propertyIsEnumerable", "toLocaleString", "toString", "valueOf",
    "__defineGetter__", "__defineSetter__", "__lookupGetter__", "__lookupSetter__"
  }

  /** Truthiness of `w.products[title]` as JavaScript evaluates it: an own entry shadows the inherited one. */
  predicate SuppliesAsWritten(w: Warehouse, title: string)
  {
    if title in w.products then w.products[title] != 0 else title in ObjectPrototypeNames
  }

  /** `warehouses.find(w => w.products[food.title])` with the inherited members included. */
  function FindWarehouseAsWritten(ws: seq<Warehouse>, title: string): (r: Option<nat>)
    ensures r.Some? ==> r.value < |ws| && SuppliesAsWritten(ws[r.value], title)
    ensures r.Some? ==> forall j :: 0 <= j < r.value ==> !SuppliesAsWritten(ws[j], title)
    ensures r.None? <==> forall j :: 0 <= j < |ws| ==> !SuppliesAsWritten(ws[j], title)
  {
    FirstMatch(ws, (w: Warehouse) => SuppliesAsWritten(w, title))
  }

  /** For every title that is not an inherited member name, the two lookups agree. */
  lemma AsWrittenAgreesOnOrdinaryTitles(ws: seq<Warehouse>, title: string)
    requires title !in ObjectPrototypeNames
    ensures FindWarehouseAsWritten(ws, title) == FindWarehouse(ws, title)
  {
  }

  /**
   * A food titled "toString", which no warehouse stocks, is routed through
   * the first warehouse by the lookup as written, and through none by the
   * corrected one.
   */
  lemma PrototypeTitleSelectsFirstWarehouse()
    ensures FindWarehouseAsWritten(Warehouses, "toString") == Some(0)
    ensures FindWarehouse(Warehouses, "toString") == None
  {
  }
}
