/** The persisted collections (services/storageService.ts). Every write is a
    read-modify-write of a whole collection and none of them looks at an
    order's status: the status rules live in the views. */
module Storage {
  import opened Types
  import Lifecycle

  /** The menu served while no menu has been stored. */
  const DefaultMenu: seq<Dish> := [
    Dish("1", "La Bandera Dominicana",
      "Arroz blanco, habichuelas rojas guisadas, carne de pollo o res, y ensalada verde.",
      350, "https://picsum.photos/seed/bandera/800/600", true, "Platos"),
    Dish("2", "Sancocho Tradicional",
      "El clásico caldo dominicano con 7 carnes, víveres y aguacate.",
      450, "https://picsum.photos/seed/sancocho/800/600", true, "Platos"),
    Dish("3", "Jugo de Chinola Natural",
      "Refrescante jugo de pasión (chinola) recién exprimido.",
      120, "https://picsum.photos/seed/chinola/800/600", true, "Bebidas"),
    Dish("4", "Morir Soñando",
      "Bebida tradicional de leche y naranja con un toque de vainilla.",
      150, "https://picsum.photos/seed/morir/800/600", true, "Bebidas"),
    Dish("5", "Habichuelas con Dulce",
      "Postre típico dominicano con galletitas de leche y pasas.",
      200, "https://picsum.photos/seed/postre/800/600", true, "Postres"),
    Dish("6", "Majarete de Maíz",
      "Crema dulce de maíz tierno con canela espolvoreada.",
      175, "https://picsum.photos/seed/majarete/800/600", true, "Postres")
  ]

  /** The courier roster served while none has been stored. */
  const DefaultDeliveryPeople: seq<DeliveryPerson> := [
    DeliveryPerson("d1", "Juan Repartidor", true),
    DeliveryPerson("d2", "Pedro Veloz", true)
  ]

  /** The category a dish is listed under when its own is missing or empty. */
  const DefaultCategory: string := "Platos"

  /** Position of the first order with this id, or -1 (Array.findIndex). */
  function IndexOfOrder(orders: seq<Order>, id: string): (k: int)
    ensures -1 <= k < |orders|
    ensures k == -1 <==> forall i :: 0 <= i < |orders| ==> orders[i].id != id
    ensures 0 <= k ==> orders[k].id == id && forall i :: 0 <= i < k ==> orders[i].id != id
  {
    if orders == [] then -1
    else if orders[0].id == id then 0
    else
      var k := IndexOfOrder(orders[1..], id);
      if k == -1 then -1 else k + 1
  }

  /** The orders with `status` written into every order carrying `id`. */
  function WithStatus(orders: seq<Order>, id: string, status: OrderStatus): (r: seq<Order>)
    ensures |r| == |orders|
    ensures forall i :: 0 <= i < |orders| ==>
      r[i] == if orders[i].id == id then orders[i].(status := status) else orders[i]
  {
    if orders == [] then []
    else
      [if orders[0].id == id then orders[0].(status := status) else orders[0]]
      + WithStatus(orders[1..], id, status)
  }

  /** The orders with every order carrying `id` given to `courier` and moved
      to PREPARING, both in the same write. */
  function WithAssignment(orders: seq<Order>, id: string, courier: string): (r: seq<Order>)
    ensures |r| == |orders|
    ensures forall i :: 0 <= i < |orders| ==>
      r[i] == if orders[i].id == id
              then orders[i].(deliveryAssignedTo := Some(courier), status := PREPARING)
              else orders[i]
  {
    if orders == [] then []
    else
      [if orders[0].id == id
       then orders[0].(deliveryAssignedTo := Some(courier), status := PREPARING)
       else orders[0]]
      + WithAssignment(orders[1..], id, courier)
  }

  /** The orders this courier is carrying right now. */
  predicate CarriedBy(o: Order, courier: string) {
    o.deliveryAssignedTo == Some(courier) && o.status == IN_TRANSIT
  }

  /** The orders with `loc` copied into every order the courier is carrying. */
  function WithLocation(orders: seq<Order>, courier: string, loc: LatLng): (r: seq<Order>)
    ensures |r| == |orders|
    ensures forall i :: 0 <= i < |orders| ==>
      r[i] == if CarriedBy(orders[i], courier)
              then orders[i].(deliveryLocation := Some(loc))
              else orders[i]
  {
    if orders == [] then []
    else
      [if CarriedBy(orders[0], courier) then orders[0].(deliveryLocation := Some(loc)) else orders[0]]
      + WithLocation(orders[1..], courier, loc)
  }

  /** The status, assignment and location writes leave every order's items
      and total alone, so orders whose totals match their lines still do. */
  lemma WritesKeepTotals(orders: seq<Order>, id: string, status: OrderStatus, courier: string, loc: LatLng)
    requires forall i :: 0 <= i < |orders| ==> Lifecycle.TotalConsistent(orders[i])
    ensures var r := WithStatus(orders, id, status);
            forall i :: 0 <= i < |r| ==> Lifecycle.TotalConsistent(r[i]) && r[i].items == orders[i].items
    ensures var r := WithAssignment(orders, id, courier);
            forall i :: 0 <= i < |r| ==> Lifecycle.TotalConsistent(r[i]) && r[i].items == orders[i].items
    ensures var r := WithLocation(orders, courier, loc);
            forall i :: 0 <= i < |r| ==> Lifecycle.TotalConsistent(r[i]) && r[i].items == orders[i].items
  {
  }

  /** The menu with a missing or empty category replaced by the default. */
  function WithCategories(menu: seq<Dish>): (r: seq<Dish>)
    ensures |r| == |menu|
    ensures forall i :: 0 <= i < |menu| ==> r[i].category != ""
    ensures forall i :: 0 <= i < |menu| ==>
      r[i] == menu[i].(category := if menu[i].category == "" then DefaultCategory else menu[i].category)
  {
    if menu == [] then []
    else
      [menu[0].(category := if menu[0].category == "" then DefaultCategory else menu[0].category)]
      + WithCategories(menu[1..])
  }

  /** A menu whose categories are all present reads back unchanged. */
  lemma {:induction false} WithCategoriesKeepsFilled(menu: seq<Dish>)
    requires forall i :: 0 <= i < |menu| ==> menu[i].category != ""
    ensures WithCategories(menu) == menu
  {
    if menu != [] {
      WithCategoriesKeepsFilled(menu[1..]);
      assert menu == [menu[0]] + menu[1..];
    }
  }

  /** Point lookup in the courier-location dictionary. */
  function Lookup(locations: map<string, LatLng>, courier: string): (r: Option<LatLng>)
    ensures r.Some? <==> courier in locations
    ensures r.Some? ==> r.value == locations[courier]
  {
    if courier in locations then Some(locations[courier]) else None
  }

  /** After a report the courier's own entry is the new position and every
      other courier's entry is what it was. */
  lemma LookupAfterReport(locations: map<string, LatLng>, courier: string, loc: LatLng, other: string)
    ensures Lookup(locations[courier := loc], courier) == Some(loc)
    ensures other != courier ==> Lookup(locations[courier := loc], other) == Lookup(locations, other)
  {
  }

  /** The browser's key-value storage. A `None` blob is a key that has never
      been written; locations default to the empty dictionary either way. */
  class Store {
    var ordersBlob: Option<seq<Order>>
    var locations: map<string, LatLng>
    var menuBlob: Option<seq<Dish>>
    var peopleBlob: Option<seq<DeliveryPerson>>

    /** Whatever the storage holds when the page loads. */
    constructor (orders: Option<seq<Order>>, locations: map<string, LatLng>,
                 menu: Option<seq<Dish>>, people: Option<seq<DeliveryPerson>>)
      ensures ordersBlob == orders && this.locations == locations
      ensures menuBlob == menu && peopleBlob == people
    {
      ordersBlob := orders;
      this.locations := locations;
      menuBlob := menu;
      peopleBlob := people;
    }

    /** The stored orders; none while the key is absent. */
    function GetOrders(): (r: seq<Order>)
      reads this`ordersBlob
      ensures ordersBlob.None? ==> r == []
      ensures ordersBlob.Some? ==> r == ordersBlob.value
    {
      if ordersBlob.Some? then ordersBlob.value else []
    }

    method SaveOrder(order: Order)
      modifies this`ordersBlob
      ensures GetOrders() == old(GetOrders()) + [order]
      ensures GetOrders()[..|old(GetOrders())|] == old(GetOrders())
    {
      var orders := GetOrders();
      orders := orders + [order];
      ordersBlob := Some(orders);
    }

    /** Replaces the first order with the same id; writes nothing when there is none. */
    method UpdateOrder(updated: Order)
      modifies this`ordersBlob
      ensures var k := IndexOfOrder(old(GetOrders()), updated.id);
              if k == -1 then ordersBlob == old(ordersBlob)
              else GetOrders() == old(GetOrders())[k := updated]
      ensures |GetOrders()| == |old(GetOrders())|
    {
      var orders := GetOrders();
      var index := IndexOfOrder(orders, updated.id);
      if index != -1 {
        orders := orders[index := updated];
        ordersBlob := Some(orders);
      }
    }

    /** Sets the status of every order with this id, whatever its status was. */
    method UpdateOrderStatus(orderId: string, status: OrderStatus)
      modifies this`ordersBlob
      ensures GetOrders() == WithStatus(old(GetOrders()), orderId, status)
    {
      var orders := GetOrders();
      ordersBlob := Some(WithStatus(orders, orderId, status));
    }

    method AssignDelivery(orderId: string, deliveryId: string)
      modifies this`ordersBlob
      ensures GetOrders() == WithAssignment(old(GetOrders()), orderId, deliveryId)
    {
      var orders := GetOrders();
      ordersBlob := Some(WithAssignment(orders, orderId, deliveryId));
    }

    /** Records the courier's position and copies it into the orders the
        courier is carrying. */
    method UpdateDeliveryLocation(deliveryId: string, location: LatLng)
      modifies this`locations, this`ordersBlob
      ensures locations == old(locations)[deliveryId := location]
      ensures GetOrders() == WithLocation(old(GetOrders()), deliveryId, location)
    {
      locations := locations[deliveryId := location];
      var orders := GetOrders();
      ordersBlob := Some(WithLocation(orders, deliveryId, location));
    }

    function GetDeliveryLocation(deliveryId: string): (r: Option<LatLng>)
      reads this`locations
      ensures r == Lookup(locations, deliveryId)
    {
      Lookup(locations, deliveryId)
    }

    /** The stored menu, or the default one, with every category filled in.
        The default's categories are all present, so filling them in leaves
        it as it is and the default is served directly. */
    function GetMenu(): (r: seq<Dish>)
      reads this`menuBlob
      ensures menuBlob.None? ==> r == DefaultMenu
      ensures menuBlob.Some? ==> r == WithCategories(menuBlob.value)
      ensures forall i :: 0 <= i < |r| ==> r[i].category != ""
    {
      WithCategoriesKeepsFilled(DefaultMenu);
      if menuBlob.Some? then WithCategories(menuBlob.value) else DefaultMenu
    }

    method SaveMenu(menu: seq<Dish>)
      modifies this`menuBlob
      ensures menuBlob == Some(menu)
    {
      menuBlob := Some(menu);
    }

    function GetDeliveryPeople(): (r: seq<DeliveryPerson>)
      reads this`peopleBlob
      ensures peopleBlob.None? ==> r == DefaultDeliveryPeople
      ensures peopleBlob.Some? ==> r == peopleBlob.value
    {
      if peopleBlob.Some? then peopleBlob.value else DefaultDeliveryPeople
    }
  }
}
