/** The order lifecycle: which status changes the views are meant to make,
    and the order total as the sum of its lines. The store itself enforces
    none of this; the view modules prove that their gated actions keep to it. */
module Lifecycle {
  import opened Types

  /** DELIVERED and CANCELLED end an order's life. */
  predicate IsTerminal(s: OrderStatus) {
    s == DELIVERED || s == CANCELLED
  }

  /** The allowed transitions: assignment and cancellation out of PENDING,
      pick-up out of PENDING or PREPARING (the courier's "pick up" button is
      offered for both), delivery out of IN_TRANSIT. */
  predicate Allowed(from: OrderStatus, to: OrderStatus) {
    match from
    case PENDING => to == PREPARING || to == CANCELLED || to == IN_TRANSIT
    case PREPARING => to == IN_TRANSIT
    case IN_TRANSIT => to == DELIVERED
    case DELIVERED => false
    case CANCELLED => false
  }

  /** How far along the lifecycle a status is. */
  function Stage(s: OrderStatus): nat {
    match s
    case PENDING => 0
    case PREPARING => 1
    case IN_TRANSIT => 2
    case DELIVERED => 3
    case CANCELLED => 3
  }

  /** Allowed steps only move forward, and nothing leaves a terminal status. */
  lemma AllowedMovesForward(from: OrderStatus, to: OrderStatus)
    ensures Allowed(from, to) ==> Stage(from) < Stage(to)
    ensures IsTerminal(from) ==> !Allowed(from, to)
  {
  }

  /** From one stored orders sequence to the next, every order keeps its
      status or takes an allowed step. */
  predicate StepsAllowed(before: seq<Order>, after: seq<Order>) {
    |before| == |after| &&
    forall i :: 0 <= i < |before| ==>
      after[i].status == before[i].status || Allowed(before[i].status, after[i].status)
  }

  /** Position-wise equal statuses. */
  predicate SameStatuses(before: seq<Order>, after: seq<Order>) {
    |before| == |after| &&
    forall i :: 0 <= i < |before| ==> after[i].status == before[i].status
  }

  lemma StepsThenSame(a: seq<Order>, b: seq<Order>, c: seq<Order>)
    requires StepsAllowed(a, b) && SameStatuses(b, c)
    ensures StepsAllowed(a, c)
  {
  }

  /** Every stored order carrying `id` has the status the view shows for it:
      the view's copy of that order is not stale. */
  predicate Agrees(orders: seq<Order>, id: string, status: OrderStatus) {
    forall i :: 0 <= i < |orders| && orders[i].id == id ==> orders[i].status == status
  }

  /** Sum of price times quantity, folded from the left like the source's reduce. */
  function Total(items: seq<LineItem>): int {
    if items == [] then 0
    else Total(items[..|items| - 1]) + items[|items| - 1].price * items[|items| - 1].quantity
  }

  /** An order's total matches its lines. */
  predicate TotalConsistent(o: Order) {
    o.total == Total(o.items)
  }

  lemma {:induction false} TotalAppend(a: seq<LineItem>, b: seq<LineItem>)
    ensures Total(a + b) == Total(a) + Total(b)
    decreases |b|
  {
    if b == [] {
      assert a + b == a;
    } else {
      var b' := b[..|b| - 1];
      assert (a + b)[..|a + b| - 1] == a + b';
      TotalAppend(a, b');
    }
  }

  lemma TotalSingle(x: LineItem)
    ensures Total([x]) == x.price * x.quantity
  {
    assert [x][..0] == [];
  }

  /** Changing a line's quantity by `d` changes its amount by `d` times its price. */
  lemma LineAmountShift(x: LineItem, d: int)
    ensures var y := x.(quantity := x.quantity + d);
            y.price * y.quantity == x.price * x.quantity + d * x.price
  {
    var y := x.(quantity := x.quantity + d);
    assert y.price * y.quantity == x.price * (x.quantity + d);
  }

  /** Replacing one line changes the total by the difference of the two lines. */
  lemma TotalUpdate(items: seq<LineItem>, k: nat, x: LineItem)
    requires k < |items|
    ensures Total(items[k := x]) == Total(items) - items[k].price * items[k].quantity + x.price * x.quantity
  {
    var front, line, back := items[..k], items[k], items[k + 1..];
    assert items == (front + [line]) + back;
    assert items[k := x] == (front + [x]) + back;
    TotalAppend(front + [line], back);
    TotalAppend(front, [line]);
    TotalAppend(front + [x], back);
    TotalAppend(front, [x]);
    TotalSingle(line);
    TotalSingle(x);
  }

  /** Removing one line subtracts that line from the total. */
  lemma TotalRemove(items: seq<LineItem>, k: nat)
    requires k < |items|
    ensures Total(items[..k] + items[k + 1..]) == Total(items) - items[k].price * items[k].quantity
  {
    var front, line, back := items[..k], items[k], items[k + 1..];
    assert items == (front + [line]) + back;
    TotalAppend(front + [line], back);
    TotalAppend(front, [line]);
    TotalAppend(front, back);
    TotalSingle(line);
  }
}
