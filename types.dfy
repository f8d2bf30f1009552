/** The records shared by the store and the three role views. */
module Types {

  datatype Option<+T> = None | Some(value: T)

  datatype OrderStatus = PENDING | PREPARING | IN_TRANSIT | DELIVERED | CANCELLED

  datatype PaymentMethod = PREPAID | CASH_ON_DELIVERY

  /** A position. The coordinates are only ever copied, never computed with. */
  datatype LatLng = LatLng(lat: real, lng: real)

  /** A menu entry. An empty `category` stands for a stored dish whose category
      is missing or empty: both read as false in the menu's defaulting rule. */
  datatype Dish = Dish(
    id: string,
    name: string,
    description: string,
    price: int,
    imageUrl: string,
    available: bool,
    category: string)

  /** One line of an order: a snapshot of the dish's name and price. */
  datatype LineItem = LineItem(dishId: string, quantity: int, name: string, price: int)

  datatype Order = Order(
    id: string,
    customerName: string,
    address: string,
    phone: string,
    notes: string,
    items: seq<LineItem>,
    total: int,
    status: OrderStatus,
    paymentMethod: PaymentMethod,
    deliveryAssignedTo: Option<string>,
    createdAt: int,
    deliveryLocation: Option<LatLng>)

  datatype DeliveryPerson = DeliveryPerson(id: string, name: string, active: bool)
}
