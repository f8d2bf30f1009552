/** The customer's screen (components/CustomerView.tsx): placing an order,
    following the active ones, the history, and editing or cancelling an
    order while the screen shows it as PENDING. */
module CustomerView {
  import opened Types
  import opened Lifecycle
  import opened Listing
  import opened Storage

  /** Not yet delivered or cancelled. */
  predicate IsActive(o: Order) {
    !IsTerminal(o.status)
  }

  predicate IsFinished(o: Order) {
    IsTerminal(o.status)
  }

  function ActiveOrders(all: seq<Order>): (r: seq<Order>)
    ensures forall o :: o in r <==> o in all && !IsTerminal(o.status)
  {
    Filter(all, IsActive)
  }

  /** The active list keeps the stored order: its head, the fallback
      selection, is the first stored order that is still active. */
  lemma ActiveOrdersHead(all: seq<Order>, k: nat)
    requires k < |all| && !IsTerminal(all[k].status)
    requires forall i :: 0 <= i < k ==> IsTerminal(all[i].status)
    ensures ActiveOrders(all) != [] && ActiveOrders(all)[0] == all[k]
  {
    FilterFirst(all, IsActive, k);
  }

  /** The finished orders, newest first. */
  function History(all: seq<Order>): (r: seq<Order>)
    ensures NewestFirst(r)
    ensures multiset(r) == multiset(Filter(all, IsFinished))
    ensures forall o :: o in r <==> o in all && IsTerminal(o.status)
  {
    var finished := Filter(all, IsFinished);
    var r := SortNewestFirst(finished);
    assert forall o :: o in r <==> o in multiset(finished);
    r
  }

  /** Active and history split the stored orders: each order lands in exactly one. */
  lemma ActiveHistoryPartition(all: seq<Order>)
    ensures multiset(ActiveOrders(all)) + multiset(History(all)) == multiset(all)
    ensures forall o :: o in all ==> (o in ActiveOrders(all) <==> o !in History(all))
  {
    FilterSplit(all, IsActive, IsFinished);
  }

  /** The order to keep tracking after a refresh: the fresh copy of the one
      tracked before if it is still active, else the first active order, and
      none when nothing is active. */
  function Reconcile(active: seq<Order>, selected: Option<Order>): (r: Option<Order>)
    ensures r.None? <==> active == []
    ensures r.Some? ==> r.value in active
    ensures selected.Some? && IndexOfOrder(active, selected.value.id) >= 0 ==>
              r.Some? && r.value.id == selected.value.id &&
              r.value == active[IndexOfOrder(active, selected.value.id)]
    ensures active != [] && (selected.None? || IndexOfOrder(active, selected.value.id) == -1) ==>
              r == Some(active[0])
  {
    if |active| > 0 && selected.None? then Some(active[0])
    else if |active| > 0 then
      var k := IndexOfOrder(active, selected.value.id);
      if k != -1 then Some(active[k]) else Some(active[0])
    else None
  }

  /** Reconciling again with the result changes nothing. */
  lemma ReconcileIdempotent(active: seq<Order>, selected: Option<Order>)
    ensures Reconcile(active, Reconcile(active, selected)) == Reconcile(active, selected)
  {
    var r := Reconcile(active, selected);
    if r.Some? {
      var k := IndexOfOrder(active, r.value.id);
      assert k >= 0 by {
        var j :| 0 <= j < |active| && active[j] == r.value;
      }
      assert active[k] == r.value by {
        if selected.Some? && IndexOfOrder(active, selected.value.id) >= 0 {
        } else {
          assert r.value == active[0];
        }
      }
    }
  }

  /** What the order form collects. */
  datatype OrderForm = OrderForm(name: string, address: string, phone: string, notes: string,
                                 paymentMethod: PaymentMethod)

  /** The order placed for one dish: a single line at the dish's current price. */
  function NewOrder(dish: Dish, form: OrderForm, id: string, now: int): (o: Order)
    ensures o.status == PENDING
    ensures o.items == [LineItem(dish.id, 1, dish.name, dish.price)]
    ensures o.total == dish.price && TotalConsistent(o)
    ensures o.deliveryAssignedTo.None? && o.deliveryLocation.None?
    ensures o.id == id && o.createdAt == now
    ensures o.customerName == form.name && o.address == form.address && o.phone == form.phone
    ensures o.notes == form.notes && o.paymentMethod == form.paymentMethod
  {
    var items := [LineItem(dish.id, 1, dish.name, dish.price)];
    TotalSingle(items[0]);
    Order(id, form.name, form.address, form.phone, form.notes, items, dish.price,
          PENDING, form.paymentMethod, None, now, None)
  }

  /** Position of the first line for this dish, or -1. */
  function IndexOfDish(items: seq<LineItem>, dishId: string): (k: int)
    ensures -1 <= k < |items|
    ensures k == -1 <==> forall i :: 0 <= i < |items| ==> items[i].dishId != dishId
    ensures 0 <= k ==> items[k].dishId == dishId && forall i :: 0 <= i < k ==> items[i].dishId != dishId
  {
    if items == [] then -1
    else if items[0].dishId == dishId then 0
    else
      var k := IndexOfDish(items[1..], dishId);
      if k == -1 then -1 else k + 1
  }

  predicate DistinctDishes(items: seq<LineItem>) {
    forall i, j :: 0 <= i < j < |items| ==> items[i].dishId != items[j].dishId
  }

  predicate PositiveQuantities(items: seq<LineItem>) {
    forall i :: 0 <= i < |items| ==> items[i].quantity >= 1
  }

  /** The draft after the minus or plus button of one line: a line that would
      drop to zero or below is removed, any other just changes its quantity,
      and an unknown dish leaves the draft alone. */
  function AdjustQuantity(items: seq<LineItem>, dishId: string, delta: int): (r: seq<LineItem>)
    ensures IndexOfDish(items, dishId) == -1 ==> r == items
    ensures var k := IndexOfDish(items, dishId);
            k >= 0 && items[k].quantity + delta <= 0 ==> r == RemoveLine(items, k)
    ensures var k := IndexOfDish(items, dishId);
            k >= 0 && items[k].quantity + delta > 0 ==>
              r == items[k := items[k].(quantity := items[k].quantity + delta)]
    ensures PositiveQuantities(items) ==> PositiveQuantities(r)
    ensures DistinctDishes(items) ==> DistinctDishes(r)
  {
    var index := IndexOfDish(items, dishId);
    if index == -1 then items
    else
      var newQty := items[index].quantity + delta;
      if newQty <= 0 then RemoveLine(items, index)
      else
        ReplaceLineKeeps(items, index, items[index].(quantity := newQty));
        items[index := items[index].(quantity := newQty)]
  }

  /** The draft without its k-th line (Array.splice of one element): the
      other lines keep their order, quantities stay positive and dishes
      distinct. */
  function RemoveLine(items: seq<LineItem>, k: nat): (r: seq<LineItem>)
    requires k < |items|
    ensures |r| == |items| - 1
    ensures forall j :: 0 <= j < k ==> r[j] == items[j]
    ensures forall j :: k <= j < |r| ==> r[j] == items[j + 1]
    ensures PositiveQuantities(items) ==> PositiveQuantities(r)
    ensures DistinctDishes(items) ==> DistinctDishes(r)
  {
    var r := items[..k] + items[k + 1..];
    assert forall j :: 0 <= j < |r| ==> r[j] == items[if j < k then j else j + 1];
    r
  }

  /** Replacing a line by one for the same dish keeps dishes distinct, and
      quantities positive when the new one is. */
  lemma ReplaceLineKeeps(items: seq<LineItem>, k: nat, x: LineItem)
    requires k < |items| && x.dishId == items[k].dishId
    ensures PositiveQuantities(items) && x.quantity >= 1 ==> PositiveQuantities(items[k := x])
    ensures DistinctDishes(items) ==> DistinctDishes(items[k := x])
  {
  }

  /** With distinct dishes, a removed line takes its dish out of the draft. */
  lemma AdjustRemovesDish(items: seq<LineItem>, dishId: string, delta: int)
    requires DistinctDishes(items)
    requires IndexOfDish(items, dishId) >= 0
    requires items[IndexOfDish(items, dishId)].quantity + delta <= 0
    ensures IndexOfDish(AdjustQuantity(items, dishId, delta), dishId) == -1
  {
    var k := IndexOfDish(items, dishId);
    var r := AdjustQuantity(items, dishId, delta);
    forall j | 0 <= j < |r| ensures r[j].dishId != dishId {
      if j >= k {
        assert r[j] == items[j + 1];
      }
    }
  }

  /** A kept line moves the draft total by delta times its price; a removed
      line takes its whole amount off. */
  lemma AdjustQuantityTotal(items: seq<LineItem>, dishId: string, delta: int)
    requires IndexOfDish(items, dishId) >= 0
    ensures var k := IndexOfDish(items, dishId);
            Total(AdjustQuantity(items, dishId, delta)) ==
              if items[k].quantity + delta <= 0
              then Total(items) - items[k].price * items[k].quantity
              else Total(items) + delta * items[k].price
  {
    var k := IndexOfDish(items, dishId);
    var r := AdjustQuantity(items, dishId, delta);
    var line := items[k];
    if line.quantity + delta <= 0 {
      assert r == items[..k] + items[k + 1..];
      TotalRemove(items, k);
    } else {
      var x := line.(quantity := line.quantity + delta);
      assert r == items[k := x];
      TotalUpdate(items, k, x);
      LineAmountShift(line, delta);
    }
  }

  /** The draft after picking a dish in the editor: one more of a dish that is
      already there, else a new line for it at the end. */
  function AddDish(items: seq<LineItem>, dish: Dish): (r: seq<LineItem>)
    ensures var k := IndexOfDish(items, dish.id);
            k >= 0 ==> r == items[k := items[k].(quantity := items[k].quantity + 1)]
    ensures IndexOfDish(items, dish.id) == -1 ==>
              r == items + [LineItem(dish.id, 1, dish.name, dish.price)]
    ensures |items| <= |r| <= |items| + 1
    ensures IndexOfDish(r, dish.id) >= 0
    ensures PositiveQuantities(items) ==> PositiveQuantities(r)
    ensures DistinctDishes(items) ==> DistinctDishes(r)
  {
    var index := IndexOfDish(items, dish.id);
    if index != -1 then
      var line := items[index].(quantity := items[index].quantity + 1);
      ReplaceLineKeeps(items, index, line);
      var r := items[index := line];
      assert r[index].dishId == dish.id;
      r
    else
      var r := items + [LineItem(dish.id, 1, dish.name, dish.price)];
      assert r[|items|].dishId == dish.id;
      r
  }

  lemma BumpTotal(items: seq<LineItem>, k: nat, r: seq<LineItem>)
    requires k < |items| && r == items[k := items[k].(quantity := items[k].quantity + 1)]
    ensures Total(r) == Total(items) + items[k].price
  {
    TotalUpdate(items, k, items[k].(quantity := items[k].quantity + 1));
    LineAmountShift(items[k], 1);
  }

  lemma AppendTotal(items: seq<LineItem>, line: LineItem)
    ensures Total(items + [line]) == Total(items) + line.price * line.quantity
  {
    TotalAppend(items, [line]);
    TotalSingle(line);
  }

  /** Adding a dish adds one unit of its line's price: the snapshot price of
      a line already there, the dish's current price for a new line. */
  lemma AddDishTotal(items: seq<LineItem>, dish: Dish)
    ensures var k := IndexOfDish(items, dish.id);
            Total(AddDish(items, dish)) ==
              Total(items) + (if k >= 0 then items[k].price else dish.price)
  {
    var k := IndexOfDish(items, dish.id);
    if k >= 0 {
      AddExistingTotal(items, dish);
    } else {
      AddNewTotal(items, dish);
    }
  }

  lemma AddExistingTotal(items: seq<LineItem>, dish: Dish)
    requires IndexOfDish(items, dish.id) >= 0
    ensures var k := IndexOfDish(items, dish.id);
            Total(AddDish(items, dish)) == Total(items) + items[k].price
  {
    AddDishBumps(items, dish);
    BumpTotal(items, IndexOfDish(items, dish.id), AddDish(items, dish));
  }

  /** The line for a dish already in the draft gains one unit. */
  lemma AddDishBumps(items: seq<LineItem>, dish: Dish)
    requires IndexOfDish(items, dish.id) >= 0
    ensures var k := IndexOfDish(items, dish.id);
            AddDish(items, dish) == items[k := items[k].(quantity := items[k].quantity + 1)]
  {
  }

  lemma AddNewTotal(items: seq<LineItem>, dish: Dish)
    requires IndexOfDish(items, dish.id) == -1
    ensures Total(AddDish(items, dish)) == Total(items) + dish.price
  {
    var line := LineItem(dish.id, 1, dish.name, dish.price);
    assert AddDish(items, dish) == items + [line];
    AppendTotal(items, line);
    assert line.price * line.quantity == dish.price;
  }

  /** The order saved from the editor: the draft, its recomputed total, and
      every other field of the order as it was shown. An empty draft is refused. */
  function EditedOrder(shown: Order, draft: seq<LineItem>): (r: Option<Order>)
    ensures r.None? <==> draft == []
    ensures r.Some? ==> r.value.items == draft && TotalConsistent(r.value)
    ensures r.Some? ==> r.value.(items := shown.items, total := shown.total) == shown
  {
    if draft == [] then None
    else Some(shown.(items := draft, total := Total(draft)))
  }

  /** The editor does not look at the status: a draft opened while the order
      was PENDING is saved the same way once the order has moved on. */
  lemma EditIgnoresStatus(shown: Order, draft: seq<LineItem>, later: OrderStatus)
    requires draft != []
    ensures EditedOrder(shown.(status := later), draft).Some?
    ensures EditedOrder(shown.(status := later), draft).value.status == later
  {
  }

  /** The save as the tracking card promises it ("the order can no longer
      be changed" once it is being prepared or is on its way): refused for
      an empty draft and unless the stored order is still PENDING; otherwise
      the first stored order with the id gets the draft and its total, and
      keeps every other field as stored. */
  function GuardedEdit(orders: seq<Order>, id: string, draft: seq<LineItem>): (r: Option<seq<Order>>)
    ensures var k := IndexOfOrder(orders, id);
            r.None? <==> draft == [] || k == -1 || orders[k].status != PENDING
    ensures r.Some? ==>
              var k := IndexOfOrder(orders, id);
              r.value == orders[k := orders[k].(items := draft, total := Total(draft))] &&
              TotalConsistent(r.value[k]) && SameStatuses(orders, r.value)
  {
    var k := IndexOfOrder(orders, id);
    if draft == [] || k == -1 || orders[k].status != PENDING then None
    else Some(orders[k := EditedOrder(orders[k], draft).value])
  }

  /** A save the guard lets through takes only allowed steps: it changes
      no status. */
  lemma GuardedEditAllowed(orders: seq<Order>, id: string, draft: seq<LineItem>)
    ensures GuardedEdit(orders, id, draft).Some? ==> StepsAllowed(orders, GuardedEdit(orders, id, draft).value)
  {
  }

  /** The save as written: an order already on its way, still shown in an
      editor opened while it was PENDING, is rewritten with the new draft
      and stays IN_TRANSIT, where the guarded save refuses it. */
  lemma EditSavedAfterPickup(o: Order, draft: seq<LineItem>)
    requires o.status == IN_TRANSIT && draft != []
    ensures var saved := EditedOrder(o, draft).value;
            IndexOfOrder([o], o.id) == 0 &&
            [o][0 := saved] == [o.(items := draft, total := Total(draft))] &&
            saved.status == IN_TRANSIT
    ensures GuardedEdit([o], o.id, draft).None?
  {
  }

  /** The customer screen's state over the shared store. */
  class CustomerSession {
    const store: Store
    var menu: seq<Dish>
    var activeOrders: seq<Order>
    var history: seq<Order>
    var selected: Option<Order>      // the order being tracked
    var selectedDish: Option<Dish>   // the dish whose order form is open
    var draft: seq<LineItem>         // the editor's working copy of the items
    var isEditing: bool

    /** The screen's initial state, before its first effect runs. */
    constructor (store: Store)
      ensures this.store == store
      ensures menu == [] && activeOrders == [] && history == [] && selected.None?
      ensures selectedDish.None? && draft == [] && !isEditing
    {
      this.store := store;
      menu, activeOrders, history, selected := [], [], [], None;
      selectedDish, draft, isEditing := None, [], false;
    }

    /** The mount effect: read the menu, then refresh the orders. */
    method Mount()
      modifies this`menu, this`activeOrders, this`history, this`selected
      ensures menu == store.GetMenu()
      ensures activeOrders == ActiveOrders(store.GetOrders())
      ensures history == History(store.GetOrders())
      ensures selected == Reconcile(activeOrders, old(selected))
    {
      menu := store.GetMenu();
      RefreshOrders();
    }

    /** One polling tick: re-read the orders, keep the tracked order if it is
        still active. It never writes the store. */
    method RefreshOrders()
      modifies this`activeOrders, this`history, this`selected
      ensures activeOrders == ActiveOrders(store.GetOrders())
      ensures history == History(store.GetOrders())
      ensures selected == Reconcile(activeOrders, old(selected))
    {
      var allOrders := store.GetOrders();
      var active := ActiveOrders(allOrders);
      activeOrders := active;
      selected := Reconcile(active, selected);
      history := History(allOrders);
    }

    /** Opening the order form for a dish. */
    method SelectDish(dish: Dish)
      modifies this`selectedDish
      ensures selectedDish == Some(dish)
    {
      selectedDish := Some(dish);
    }

    /** Submitting the order form: nothing happens without a chosen dish;
        otherwise the new order is appended and becomes the tracked order. */
    method HandleOrder(form: OrderForm, id: string, now: int) returns (placed: Option<Order>)
      modifies store`ordersBlob, this`activeOrders, this`history, this`selected, this`selectedDish
      ensures old(selectedDish).None? ==>
                placed.None? && store.ordersBlob == old(store.ordersBlob) &&
                activeOrders == old(activeOrders) && history == old(history) &&
                selected == old(selected) && selectedDish == old(selectedDish)
      ensures old(selectedDish).Some? ==>
                placed == Some(NewOrder(old(selectedDish).value, form, id, now)) &&
                store.GetOrders() == old(store.GetOrders()) + [placed.value] &&
                activeOrders == ActiveOrders(store.GetOrders()) &&
                history == History(store.GetOrders()) &&
                selected == placed && selectedDish.None?
    {
      if selectedDish.None? {
        return None;
      }
      var newOrder := NewOrder(selectedDish.value, form, id, now);
      selectedDish := None;
      SaveAndTrack(newOrder);
      placed := Some(newOrder);
    }

    /** The second half of submitting: store the order, refresh the lists
        and track the new order. */
    method SaveAndTrack(order: Order)
      modifies store`ordersBlob, this`activeOrders, this`history, this`selected
      ensures store.GetOrders() == old(store.GetOrders()) + [order]
      ensures activeOrders == ActiveOrders(store.GetOrders())
      ensures history == History(store.GetOrders())
      ensures selected == Some(order)
    {
      store.SaveOrder(order);
      RefreshOrders();
      selected := Some(order);
    }

    /** The cancel handler, once the customer has answered the confirmation. */
    method HandleCancelOrder(orderId: string, confirmed: bool)
      modifies store`ordersBlob, this`activeOrders, this`history, this`selected
      ensures !confirmed ==> store.ordersBlob == old(store.ordersBlob) && selected == old(selected) &&
                             activeOrders == old(activeOrders) && history == old(history)
      ensures confirmed ==>
                store.GetOrders() == WithStatus(old(store.GetOrders()), orderId, CANCELLED) &&
                activeOrders == ActiveOrders(store.GetOrders()) &&
                history == History(store.GetOrders()) &&
                selected == Reconcile(activeOrders, old(selected))
    {
      if confirmed {
        store.UpdateOrderStatus(orderId, CANCELLED);
        RefreshOrders();
      }
    }

    /** The edit and cancel buttons of the tracking card exist only while the
        tracked order is shown as PENDING. */
    predicate ShowsEditControls()
      reads this
    {
      selected.Some? && selected.value.status == PENDING
    }

    /** Pressing the cancel button. When the card is up to date with the
        store, the only status change is PENDING to CANCELLED. */
    method PressCancel(confirmed: bool)
      modifies store`ordersBlob, this`activeOrders, this`history, this`selected
      ensures !old(ShowsEditControls()) || !confirmed ==>
                store.ordersBlob == old(store.ordersBlob) && selected == old(selected) &&
                activeOrders == old(activeOrders) && history == old(history)
      ensures old(ShowsEditControls()) && confirmed ==>
                store.GetOrders() == WithStatus(old(store.GetOrders()), old(selected).value.id, CANCELLED) &&
                activeOrders == ActiveOrders(store.GetOrders()) &&
                history == History(store.GetOrders()) &&
                selected == Reconcile(activeOrders, old(selected))
      ensures old(ShowsEditControls()) && Agrees(old(store.GetOrders()), old(selected).value.id, PENDING) ==>
                StepsAllowed(old(store.GetOrders()), store.GetOrders())
    {
      if ShowsEditControls() {
        var id := selected.value.id;
        ghost var before := store.GetOrders();
        HandleCancelOrder(id, confirmed);
        if confirmed && Agrees(before, id, PENDING) {
          CancelStepAllowed(before, id);
        }
      }
    }

    /** Opening the editor with a copy of the tracked order's items. */
    method StartEditingOrder()
      modifies this`draft, this`isEditing
      ensures old(selected).None? ==> draft == old(draft) && isEditing == old(isEditing)
      ensures old(selected).Some? ==> draft == old(selected).value.items && isEditing
    {
      if selected.None? {
        return;
      }
      draft := selected.value.items;
      isEditing := true;
    }

    /** Pressing the edit button, which is only there for a PENDING order. */
    method PressEdit()
      modifies this`draft, this`isEditing
      ensures old(ShowsEditControls()) ==> draft == old(selected).value.items && isEditing
      ensures !old(ShowsEditControls()) ==> draft == old(draft) && isEditing == old(isEditing)
    {
      if ShowsEditControls() {
        StartEditingOrder();
      }
    }

    method UpdateTempItemQuantity(dishId: string, delta: int)
      modifies this`draft
      ensures draft == AdjustQuantity(old(draft), dishId, delta)
    {
      var index := IndexOfDish(draft, dishId);
      if index == -1 {
        return;
      }
      var updated := draft;
      var newQty := updated[index].quantity + delta;
      if newQty <= 0 {
        updated := RemoveLine(updated, index);
      } else {
        updated := updated[index := updated[index].(quantity := newQty)];
      }
      draft := updated;
    }

    method AddDishToTempOrder(dish: Dish)
      modifies this`draft
      ensures draft == AddDish(old(draft), dish)
    {
      var index := IndexOfDish(draft, dish.id);
      if index != -1 {
        var updated := draft;
        updated := updated[index := updated[index].(quantity := updated[index].quantity + 1)];
        draft := updated;
        return;
      }
      draft := draft + [LineItem(dish.id, 1, dish.name, dish.price)];
    }

    /** Saving the editor: refused without a tracked order or with an empty
        draft; otherwise the tracked order is rewritten with the draft and
        its total. */
    method SaveEditedOrder() returns (saved: bool)
      modifies store`ordersBlob, this`activeOrders, this`history, this`selected, this`isEditing
      ensures saved <==> old(selected).Some? && old(draft) != []
      ensures !saved ==> store.ordersBlob == old(store.ordersBlob) && selected == old(selected) &&
                         isEditing == old(isEditing) &&
                         activeOrders == old(activeOrders) && history == old(history)
      ensures saved ==>
                var shown := old(selected).value;
                var edited := EditedOrder(shown, old(draft)).value;
                var k := IndexOfOrder(old(store.GetOrders()), shown.id);
                (k == -1 ==> store.ordersBlob == old(store.ordersBlob)) &&
                (k != -1 ==> store.GetOrders() == old(store.GetOrders())[k := edited]) &&
                activeOrders == ActiveOrders(store.GetOrders()) &&
                history == History(store.GetOrders()) &&
                selected == Reconcile(activeOrders, Some(edited)) &&
                !isEditing
      ensures saved && Agrees(old(store.GetOrders()), old(selected).value.id, old(selected).value.status) ==>
                StepsAllowed(old(store.GetOrders()), store.GetOrders())
    {
      if selected.None? || |draft| == 0 {
        return false;
      }
      ghost var before := store.GetOrders();
      var total := Total(draft);
      var updatedOrder := selected.value.(items := draft, total := total);
      UpdateAndTrack(updatedOrder);
      saved := true;
      var k := IndexOfOrder(before, updatedOrder.id);
      if k != -1 {
        assert before[k].id == updatedOrder.id;
      }
    }

    /** Saving the editor as the tracking card promises it: the stored order
        is re-read and the save is refused, writing nothing, unless that
        order is still PENDING. The store itself stays unguarded. */
    method SaveGuardedEdit() returns (saved: bool)
      modifies store`ordersBlob, this`activeOrders, this`history, this`selected, this`isEditing
      ensures saved <==> old(selected).Some? &&
                         GuardedEdit(old(store.GetOrders()), old(selected).value.id, old(draft)).Some?
      ensures !saved ==> store.ordersBlob == old(store.ordersBlob) && selected == old(selected) &&
                         isEditing == old(isEditing) &&
                         activeOrders == old(activeOrders) && history == old(history)
      ensures saved ==>
                store.GetOrders() == GuardedEdit(old(store.GetOrders()), old(selected).value.id, old(draft)).value &&
                activeOrders == ActiveOrders(store.GetOrders()) &&
                history == History(store.GetOrders()) &&
                selected == Reconcile(activeOrders, old(selected)) &&
                !isEditing
      ensures StepsAllowed(old(store.GetOrders()), store.GetOrders())
    {
      if selected.None? {
        return false;
      }
      var orders := store.GetOrders();
      var result := GuardedEdit(orders, selected.value.id, draft);
      if result.None? {
        return false;
      }
      var k := IndexOfOrder(orders, selected.value.id);
      var updatedOrder := result.value[k];
      UpdateAndTrack(updatedOrder);
      saved := true;
      GuardedEditAllowed(orders, old(selected).value.id, draft);
    }

    /** The second half of saving the editor: rewrite the stored order, close
        the editor and refresh, reconciling toward the rewritten order. */
    method UpdateAndTrack(updated: Order)
      modifies store`ordersBlob, this`activeOrders, this`history, this`selected, this`isEditing
      ensures var k := IndexOfOrder(old(store.GetOrders()), updated.id);
              (k == -1 ==> store.ordersBlob == old(store.ordersBlob)) &&
              (k != -1 ==> store.GetOrders() == old(store.GetOrders())[k := updated])
      ensures activeOrders == ActiveOrders(store.GetOrders())
      ensures history == History(store.GetOrders())
      ensures selected == Reconcile(activeOrders, Some(updated))
      ensures !isEditing
    {
      store.UpdateOrder(updated);
      selected := Some(updated);
      isEditing := false;
      RefreshOrders();
    }
  }

  /** Cancelling an order that is PENDING wherever it is stored is an allowed step. */
  lemma CancelStepAllowed(orders: seq<Order>, id: string)
    requires Agrees(orders, id, PENDING)
    ensures StepsAllowed(orders, WithStatus(orders, id, CANCELLED))
  {
  }
}
