/** The admin's screen (components/AdminView.tsx): every order newest first,
    courier assignment for PENDING orders, and replacing the menu with the
    dishes an outside suggestion service proposes. */
module AdminView {
  import opened Types
  import opened Lifecycle
  import opened Listing
  import opened Storage
  import opened Decimal

  /** One proposed dish, as the suggestion service returns it. */
  datatype Suggestion = Suggestion(name: string, description: string, price: int)

  /** The id `ai-<now>-<idx>` given to the idx-th generated dish, `now`
      being the clock reading taken while that dish was built. */
  function AiDishId(now: nat, idx: nat): string {
    "ai-" + NatToString(now) + "-" + NatToString(idx)
  }

  /** The characters of `s` before its first dash. */
  function BeforeDash(s: string): string {
    if s == [] || s[0] == '-' then [] else [s[0]] + BeforeDash(s[1..])
  }

  /** A string without dashes is what comes before the dash it is joined with. */
  lemma {:induction false} BeforeDashJoined(a: string, b: string)
    requires forall i :: 0 <= i < |a| ==> a[i] != '-'
    ensures BeforeDash(a + "-" + b) == a
  {
    if a != [] {
      assert (a + "-" + b)[1..] == a[1..] + "-" + b;
      BeforeDashJoined(a[1..], b);
      assert a == [a[0]] + a[1..];
    }
  }

  /** Two digit strings joined by a dash split back into the same two. */
  lemma SplitAtDash(a: string, b: string, c: string, d: string)
    requires forall i :: 0 <= i < |a| ==> '0' <= a[i] <= '9'
    requires forall i :: 0 <= i < |c| ==> '0' <= c[i] <= '9'
    requires a + "-" + b == c + "-" + d
    ensures a == c && b == d
  {
    BeforeDashJoined(a, b);
    BeforeDashJoined(c, d);
    var u, v := a + "-" + b, c + "-" + d;
    assert b == u[|a| + 1..] && d == v[|c| + 1..];
  }

  /** An id determines both the clock reading and the index it was made
      from, so dishes with different indices never share an id, whatever
      the clock read for each of them. */
  lemma AiDishIdInjective(t1: nat, i: nat, t2: nat, j: nat)
    requires AiDishId(t1, i) == AiDishId(t2, j)
    ensures t1 == t2 && i == j
  {
    var a, b, c, d := NatToString(t1), NatToString(i), NatToString(t2), NatToString(j);
    assert AiDishId(t1, i) == "ai-" + (a + "-" + b);
    assert AiDishId(t2, j) == "ai-" + (c + "-" + d);
    assert (a + "-" + b) == AiDishId(t1, i)[3..];
    assert (c + "-" + d) == AiDishId(t2, j)[3..];
    SplitAtDash(a, b, c, d);
    NatToStringInjective(t1, t2);
    NatToStringInjective(i, j);
  }

  function AiDish(s: Suggestion, now: nat, idx: nat): Dish {
    Dish(AiDishId(now, idx), s.name, s.description, s.price,
         "https://picsum.photos/seed/" + s.name + "/800/600", true, DefaultCategory)
  }

  /** The generated dishes for suggestions numbered from `start`; `clock(k)`
      is the clock reading taken while building the k-th dish. */
  function AiDishesFrom(suggestions: seq<Suggestion>, clock: nat -> nat, start: nat): (menu: seq<Dish>)
    ensures |menu| == |suggestions|
    ensures forall i :: 0 <= i < |suggestions| ==> menu[i] == AiDish(suggestions[i], clock(start + i), start + i)
    decreases |suggestions|
  {
    if suggestions == [] then []
    else [AiDish(suggestions[0], clock(start), start)] + AiDishesFrom(suggestions[1..], clock, start + 1)
  }

  /** The replacement menu: one dish per suggestion, in order, with its name,
      description and price, available and under the default category. The
      clock is read once per dish. */
  function SuggestedMenu(suggestions: seq<Suggestion>, clock: nat -> nat): (menu: seq<Dish>)
    ensures |menu| == |suggestions|
    ensures forall i :: 0 <= i < |menu| ==>
              menu[i].name == suggestions[i].name &&
              menu[i].description == suggestions[i].description &&
              menu[i].price == suggestions[i].price
    ensures forall i :: 0 <= i < |menu| ==> menu[i].available && menu[i].category == "Platos"
    ensures forall i :: 0 <= i < |menu| ==> menu[i].id == AiDishId(clock(i), i)
  {
    AiDishesFrom(suggestions, clock, 0)
  }

  /** No two generated dishes share an id, whatever the clock reads. */
  lemma SuggestedIdsDistinct(suggestions: seq<Suggestion>, clock: nat -> nat)
    ensures var menu := SuggestedMenu(suggestions, clock);
            forall i, j :: 0 <= i < j < |menu| ==> menu[i].id != menu[j].id
  {
    var menu := SuggestedMenu(suggestions, clock);
    forall i, j | 0 <= i < j < |menu| ensures menu[i].id != menu[j].id {
      if menu[i].id == menu[j].id {
        AiDishIdInjective(clock(i), i, clock(j), j);
      }
    }
  }

  /** A generated menu reads back from the store exactly as it was saved:
      every category is already filled in. */
  lemma SuggestedMenuReadsBack(suggestions: seq<Suggestion>, clock: nat -> nat)
    ensures WithCategories(SuggestedMenu(suggestions, clock)) == SuggestedMenu(suggestions, clock)
  {
    WithCategoriesKeepsFilled(SuggestedMenu(suggestions, clock));
  }

  /** Position of the first courier with this id, or -1. */
  function IndexOfPerson(people: seq<DeliveryPerson>, id: string): (k: int)
    ensures -1 <= k < |people|
    ensures k == -1 <==> forall i :: 0 <= i < |people| ==> people[i].id != id
    ensures 0 <= k ==> people[k].id == id && forall i :: 0 <= i < k ==> people[i].id != id
  {
    if people == [] then -1
    else if people[0].id == id then 0
    else
      var k := IndexOfPerson(people[1..], id);
      if k == -1 then -1 else k + 1
  }

  /** What the assignment column of an order's row holds: a courier picker
      (its choices are the roster's ids) or a label. */
  datatype AssignCell = Picker(choices: seq<string>) | Label(text: string)

  function RosterIds(people: seq<DeliveryPerson>): (ids: seq<string>)
    ensures |ids| == |people|
    ensures forall i :: 0 <= i < |people| ==> ids[i] == people[i].id
  {
    if people == [] then [] else [people[0].id] + RosterIds(people[1..])
  }

  /** The label shown when the assigned courier has no name on the roster. */
  const AssignedLabel: string := "Asignado"

  /** A picker only for PENDING orders; otherwise the assigned courier's
      name from the roster, or the fallback label when the courier is not
      found or has an empty name. */
  function AssignmentCell(o: Order, people: seq<DeliveryPerson>): (c: AssignCell)
    ensures c.Picker? <==> o.status == PENDING
    ensures c.Picker? ==> c.choices == RosterIds(people)
    ensures c.Label? && o.deliveryAssignedTo.Some? && IndexOfPerson(people, o.deliveryAssignedTo.value) >= 0 ==>
              var name := people[IndexOfPerson(people, o.deliveryAssignedTo.value)].name;
              c.text == if name != "" then name else AssignedLabel
    ensures c.Label? && (o.deliveryAssignedTo.None? || IndexOfPerson(people, o.deliveryAssignedTo.value) == -1) ==>
              c.text == AssignedLabel
    ensures c.Label? ==> c.text != ""
  {
    if o.status == PENDING then Picker(RosterIds(people))
    else
      var k := if o.deliveryAssignedTo.Some? then IndexOfPerson(people, o.deliveryAssignedTo.value) else -1;
      if k >= 0 && people[k].name != "" then Label(people[k].name) else Label(AssignedLabel)
  }

  /** Assigning an order that is PENDING wherever it is stored is an allowed step. */
  lemma AssignStepAllowed(orders: seq<Order>, id: string, courier: string)
    requires Agrees(orders, id, PENDING)
    ensures StepsAllowed(orders, WithAssignment(orders, id, courier))
  {
  }

  /** The store itself does not refuse a write: it reassigns a delivered order
      and drags it back to PREPARING. */
  lemma StoreReassignsDelivered(o: Order, courier: string)
    requires o.status == DELIVERED
    ensures !StepsAllowed([o], WithAssignment([o], o.id, courier))
  {
    assert WithAssignment([o], o.id, courier)[0].status == PREPARING;
  }

  /** The admin screen's state over the shared store. */
  class AdminSession {
    const store: Store
    var menu: seq<Dish>
    var orders: seq<Order>
    var deliveryPeople: seq<DeliveryPerson>

    constructor (store: Store)
      ensures this.store == store
      ensures menu == [] && orders == [] && deliveryPeople == []
    {
      this.store := store;
      menu, orders, deliveryPeople := [], [], [];
    }

    /** One polling tick (also the mount effect). It never writes the store. */
    method RefreshData()
      modifies this`menu, this`orders, this`deliveryPeople
      ensures menu == store.GetMenu()
      ensures orders == SortNewestFirst(store.GetOrders())
      ensures deliveryPeople == store.GetDeliveryPeople()
    {
      orders := SortNewestFirst(store.GetOrders());
      deliveryPeople := store.GetDeliveryPeople();
      menu := store.GetMenu();
    }

    /** Handling the suggestion service's answer (None when the call failed
        or gave nothing): otherwise the generated menu replaces both the
        screen's menu and the stored one. An empty list is an answer too.
        `clock(k)` is the clock reading taken while building the k-th dish. */
    method HandleAiSuggest(suggestions: Option<seq<Suggestion>>, clock: nat -> nat)
      modifies this`menu, store`menuBlob
      ensures suggestions.None? ==> menu == old(menu) && store.menuBlob == old(store.menuBlob)
      ensures suggestions.Some? ==>
                menu == SuggestedMenu(suggestions.value, clock) && store.menuBlob == Some(menu)
      ensures suggestions.Some? ==> store.GetMenu() == menu
    {
      if suggestions.Some? {
        var newMenu := SuggestedMenu(suggestions.value, clock);
        menu := newMenu;
        store.SaveMenu(newMenu);
        SuggestedMenuReadsBack(suggestions.value, clock);
      }
    }

    method HandleAssign(orderId: string, deliveryId: string)
      modifies store`ordersBlob, this`menu, this`orders, this`deliveryPeople
      ensures store.GetOrders() == WithAssignment(old(store.GetOrders()), orderId, deliveryId)
      ensures menu == store.GetMenu()
      ensures orders == SortNewestFirst(store.GetOrders())
      ensures deliveryPeople == store.GetDeliveryPeople()
    {
      store.AssignDelivery(orderId, deliveryId);
      RefreshData();
    }

    /** Picking a courier in an order's row; the picker is only there while
        the row shows the order as PENDING. When the row is up to date with
        the store, the only status change is PENDING to PREPARING. */
    method PickCourier(order: Order, deliveryId: string)
      modifies store`ordersBlob, this`menu, this`orders, this`deliveryPeople
      ensures !AssignmentCell(order, old(deliveryPeople)).Picker? ==>
                store.ordersBlob == old(store.ordersBlob) &&
                menu == old(menu) && orders == old(orders) && deliveryPeople == old(deliveryPeople)
      ensures AssignmentCell(order, old(deliveryPeople)).Picker? ==>
                store.GetOrders() == WithAssignment(old(store.GetOrders()), order.id, deliveryId) &&
                menu == store.GetMenu() && orders == SortNewestFirst(store.GetOrders()) &&
                deliveryPeople == store.GetDeliveryPeople()
      ensures Agrees(old(store.GetOrders()), order.id, order.status) ==>
                StepsAllowed(old(store.GetOrders()), store.GetOrders())
    {
      if AssignmentCell(order, deliveryPeople).Picker? {
        ghost var before := store.GetOrders();
        HandleAssign(order.id, deliveryId);
        if Agrees(before, order.id, order.status) {
          AssignStepAllowed(before, order.id, deliveryId);
        }
      }
    }
  }
}
