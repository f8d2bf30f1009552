/** Two end-to-end flows over the stored orders sequence, written with the
    same transformations the store applies. */
module Scenarios {
  import opened Types
  import opened Lifecycle
  import opened Listing
  import opened Storage
  import opened CustomerView
  import opened DeliveryView

  /** A 350 cash-on-delivery order is placed, given to d1, picked up,
      located and delivered: each write has the documented effect, each is an
      allowed step, and what is stored at the end is that one order, delivered
      by d1 at the reported position (DeliveredListsAlone says which lists
      then show it). */
  lemma PlaceAssignPickUpDeliver(dish: Dish, form: OrderForm, id: string, now: int, loc: LatLng,
                                 placed: seq<Order>, handedOver: seq<Order>, pickedUp: seq<Order>,
                                 located: seq<Order>, delivered: seq<Order>)
    requires dish.price == 350 && form.paymentMethod == CASH_ON_DELIVERY
    requires placed == [NewOrder(dish, form, id, now)]
    requires handedOver == WithAssignment(placed, id, "d1")
    requires pickedUp == WithStatus(handedOver, id, IN_TRANSIT)
    requires located == WithLocation(pickedUp, "d1", loc)
    requires delivered == WithStatus(located, id, DELIVERED)
    ensures placed[0].status == PENDING && placed[0].total == 350
    ensures |placed[0].items| == 1 && placed[0].items[0].quantity == 1
    ensures handedOver[0].status == PREPARING && handedOver[0].deliveryAssignedTo == Some("d1")
    ensures pickedUp[0].status == IN_TRANSIT
    ensures located[0].deliveryLocation == Some(loc)
    ensures delivered[0].status == DELIVERED
    ensures StepsAllowed(placed, handedOver) && StepsAllowed(handedOver, pickedUp)
    ensures StepsAllowed(pickedUp, located) && StepsAllowed(located, delivered)
    ensures delivered == [placed[0].(deliveryAssignedTo := Some("d1"), status := DELIVERED,
                                     deliveryLocation := Some(loc))]
  {
    var o0 := placed[0];
    var o1 := o0.(deliveryAssignedTo := Some("d1"), status := PREPARING);
    var o2 := o1.(status := IN_TRANSIT);
    var o3 := o2.(deliveryLocation := Some(loc));
    var o4 := o3.(status := DELIVERED);
    assert handedOver == [o1];
    assert pickedUp == [o2];
    assert located == [o3];
    assert delivered == [o4];
  }

  /** A single delivered order of the courier's is on neither active list and
      is the whole of both finished lists. */
  lemma DeliveredListsAlone(o: Order, courier: string)
    requires o.status == DELIVERED && o.deliveryAssignedTo == Some(courier)
    ensures ActiveOrders([o]) == [] && History([o]) == [o]
    ensures ActiveFor([o], courier) == [] && CompletedFor([o], courier) == [o]
  {
    assert [o][1..] == [];
    assert Filter([o], IsActive) == [];
    assert Filter([o], MineActive(courier)) == [];
    assert Filter([o], IsFinished) == [o];
    assert Filter([o], MineDelivered(courier)) == [o];
    SingleSorted(History([o]), o);
    SingleSorted(CompletedFor([o], courier), o);
  }

  /** Once the order is delivered the customer can neither edit nor cancel
      it: the guarded save refuses any draft, and after a refresh nothing is
      tracked, so the card with the edit and cancel buttons is gone. */
  lemma DeliveredRefusesChanges(o: Order, draft: seq<LineItem>, tracked: Option<Order>)
    requires o.status == DELIVERED
    ensures GuardedEdit([o], o.id, draft).None?
    ensures Reconcile(ActiveOrders([o]), tracked).None?
  {
    assert [o][1..] == [];
    assert Filter([o], IsActive) == [];
  }

  /** A sequence with the multiset of `[o]` is `[o]`. */
  lemma SingleSorted(s: seq<Order>, o: Order)
    requires multiset(s) == multiset([o])
    ensures s == [o]
  {
    assert |s| == |multiset(s)| == 1;
    assert s[0] in multiset(s);
  }

  /** A one-line draft of a 350 dish gains a 120 dish: the saved total is
      470. Taking the only line out leaves an empty draft, which is refused. */
  lemma EditToTwoDishes(shown: Order, first: Dish, second: Dish)
    requires first.price == 350 && second.price == 120 && first.id != second.id
    requires shown.items == [LineItem(first.id, 1, first.name, first.price)]
    ensures var draft := AddDish(shown.items, second);
            |draft| == 2 && EditedOrder(shown, draft).Some? && EditedOrder(shown, draft).value.total == 470
    ensures AdjustQuantity(shown.items, first.id, -1) == [] && EditedOrder(shown, []).None?
  {
    assert IndexOfDish(shown.items, second.id) == -1;
    AddDishTotal(shown.items, second);
    TotalSingle(shown.items[0]);
    assert IndexOfDish(shown.items, first.id) == 0;
  }
}
