/** The courier's screen (components/DeliveryView.tsx): the courier's own
    orders, the pick-up and deliver buttons, and the position watch that runs
    exactly while one of those orders is on its way. */
module DeliveryView {
  import opened Types
  import opened Lifecycle
  import opened Listing
  import opened Storage

  /** The courier this screen is fixed to. */
  const CurrentCourier: string := "d1"

  /** Assigned to the courier and not finished. */
  function MineActive(courier: string): Order -> bool {
    (o: Order) => o.deliveryAssignedTo == Some(courier) && !IsTerminal(o.status)
  }

  function MineDelivered(courier: string): Order -> bool {
    (o: Order) => o.deliveryAssignedTo == Some(courier) && o.status == DELIVERED
  }

  function ActiveFor(all: seq<Order>, courier: string): (r: seq<Order>)
    ensures forall o :: o in r <==> o in all && o.deliveryAssignedTo == Some(courier) && !IsTerminal(o.status)
  {
    Filter(all, MineActive(courier))
  }

  /** The courier's delivered orders, newest first. */
  function CompletedFor(all: seq<Order>, courier: string): (r: seq<Order>)
    ensures NewestFirst(r)
    ensures multiset(r) == multiset(Filter(all, MineDelivered(courier)))
    ensures forall o :: o in r <==> o in all && o.deliveryAssignedTo == Some(courier) && o.status == DELIVERED
  {
    var delivered := Filter(all, MineDelivered(courier));
    var r := SortNewestFirst(delivered);
    assert forall o :: o in r <==> o in multiset(delivered);
    r
  }

  predicate IsReady(o: Order) {
    o.status == PREPARING || o.status == PENDING
  }

  predicate IsOnTheWay(o: Order) {
    o.status == IN_TRANSIT
  }

  /** The "ready to pick up" list. */
  function ReadyToPickUp(active: seq<Order>): (r: seq<Order>)
    ensures forall o :: o in r <==> o in active && (o.status == PREPARING || o.status == PENDING)
  {
    Filter(active, IsReady)
  }

  /** The "on the way" list. */
  function InTransitOrders(active: seq<Order>): (r: seq<Order>)
    ensures forall o :: o in r <==> o in active && o.status == IN_TRANSIT
  {
    Filter(active, IsOnTheWay)
  }

  /** The two lists split the courier's active orders: each order is in exactly one. */
  lemma PickupListsPartition(all: seq<Order>, courier: string)
    ensures var active := ActiveFor(all, courier);
            multiset(ReadyToPickUp(active)) + multiset(InTransitOrders(active)) == multiset(active)
    ensures var active := ActiveFor(all, courier);
            forall o :: o in active ==> (o in ReadyToPickUp(active) <==> o !in InTransitOrders(active))
  {
    var active := ActiveFor(all, courier);
    assert forall i :: 0 <= i < |active| ==> !IsTerminal(active[i].status) by {
      forall i | 0 <= i < |active| ensures !IsTerminal(active[i].status) {
        assert active[i] in active;
      }
    }
    FilterSplit(active, IsReady, IsOnTheWay);
  }

  predicate AnyInTransit(active: seq<Order>) {
    exists i :: 0 <= i < |active| && active[i].status == IN_TRANSIT
  }

  /** The watch is wanted exactly when the "on the way" list is not empty. */
  lemma AnyInTransitIffListed(active: seq<Order>)
    ensures AnyInTransit(active) <==> InTransitOrders(active) != []
  {
    if AnyInTransit(active) {
      var i :| 0 <= i < |active| && active[i].status == IN_TRANSIT;
      assert active[i] in InTransitOrders(active);
    }
    if InTransitOrders(active) != [] {
      var o := InTransitOrders(active)[0];
      assert o in active;
      var i :| 0 <= i < |active| && active[i] == o;
    }
  }

  /** The status the card's button writes: pick up anything not yet on its
      way, deliver what is. */
  function CardAction(o: Order): (s: OrderStatus)
    ensures s != o.status
    ensures s == IN_TRANSIT || s == DELIVERED
    ensures s == DELIVERED <==> o.status == IN_TRANSIT
  {
    if o.status != IN_TRANSIT then IN_TRANSIT else DELIVERED
  }

  /** On every card the screen shows, the button takes an allowed step. */
  lemma CardActionAllowed(active: seq<Order>, o: Order)
    requires o in ReadyToPickUp(active) || o in InTransitOrders(active)
    ensures Allowed(o.status, CardAction(o))
  {
  }

  /** A status write whose new status is an allowed step from the one the
      view shows, followed by writes that keep statuses, is a run of allowed
      steps whenever the view was up to date. */
  lemma StatusWriteAllowed(before: seq<Order>, id: string, from: OrderStatus, to: OrderStatus, after: seq<Order>)
    requires Allowed(from, to) && SameStatuses(WithStatus(before, id, to), after)
    ensures Agrees(before, id, from) ==> StepsAllowed(before, after)
  {
    if Agrees(before, id, from) {
      StepsThenSame(before, WithStatus(before, id, to), after);
    }
  }

  /** Picking up one of the courier's stored orders puts an order of the
      courier's on its way. */
  lemma PickupPutsInTransit(all: seq<Order>, order: Order, courier: string)
    requires order in all && order.deliveryAssignedTo == Some(courier)
    ensures AnyInTransit(ActiveFor(WithStatus(all, order.id, IN_TRANSIT), courier))
  {
    var i :| 0 <= i < |all| && all[i] == order;
    var written := WithStatus(all, order.id, IN_TRANSIT);
    var active := ActiveFor(written, courier);
    assert written[i] in written;
    assert written[i] in active;
    var j :| 0 <= j < |active| && active[j] == written[i];
  }

  /** Handles that the positioning capability hands out. */
  type WatchId = int

  datatype WatchEvent = Started(id: WatchId) | Stopped(id: WatchId)

  datatype TrackingState = TrackingState(held: Option<WatchId>, events: seq<WatchEvent>)

  /** The tracking gate of one refresh: start a watch when some order is on
      its way and none is held (if the capability exists), stop the held one
      when no order is on its way, otherwise do nothing. */
  function TrackingTick(held: Option<WatchId>, anyInTransit: bool, available: bool, nextId: WatchId): (r: TrackingState)
    ensures available ==> (r.held.Some? <==> anyInTransit)
    ensures r.held.Some? ==> anyInTransit
    ensures |r.events| <= 1
    ensures forall e :: e in r.events && e.Started? ==> held.None?
    ensures forall e :: e in r.events && e.Stopped? ==> held.Some? && e.id == held.value
    ensures held.Some? && anyInTransit ==> r == TrackingState(held, [])
    ensures held.None? && !anyInTransit ==> r == TrackingState(held, [])
  {
    if anyInTransit && held.None? then
      if available then TrackingState(Some(nextId), [Started(nextId)]) else TrackingState(None, [])
    else if !anyInTransit && held.Some? then
      TrackingState(None, [Stopped(held.value)])
    else TrackingState(held, [])
  }

  /** A second tick on the same data starts and stops nothing. */
  lemma TickIdempotent(held: Option<WatchId>, anyInTransit: bool, available: bool, nextId: WatchId, nextId': WatchId)
    ensures var first := TrackingTick(held, anyInTransit, available, nextId);
            TrackingTick(first.held, anyInTransit, available, nextId') == TrackingState(first.held, [])
  {
  }

  /** A log of watch events that strictly alternates Started, Stopped,
      Started, ..., where each Stopped releases the handle the Started before
      it acquired, and `held` is the handle of a final Started, if any. */
  ghost predicate Consistent(log: seq<WatchEvent>, held: Option<WatchId>)
    decreases |log|
  {
    if log == [] then held.None?
    else
      match log[|log| - 1]
      case Started(id) => held == Some(id) && Consistent(log[..|log| - 1], None)
      case Stopped(id) => held.None? && Consistent(log[..|log| - 1], Some(id))
  }

  lemma TickKeepsConsistent(log: seq<WatchEvent>, held: Option<WatchId>, anyInTransit: bool,
                            available: bool, nextId: WatchId)
    requires Consistent(log, held)
    ensures var r := TrackingTick(held, anyInTransit, available, nextId);
            Consistent(log + r.events, r.held)
  {
    var r := TrackingTick(held, anyInTransit, available, nextId);
    if r.events == [] {
      assert log + r.events == log;
    } else {
      assert (log + r.events)[..|log|] == log;
    }
  }

  /** What a refresh tick sees of the store: whether an order is on its way,
      whether the capability exists, and the handle a new watch would get. */
  datatype TickInput = TickInput(anyInTransit: bool, available: bool, nextId: WatchId)

  /** A run of refresh ticks. */
  function Run(held: Option<WatchId>, ticks: seq<TickInput>): (r: TrackingState)
    decreases |ticks|
  {
    if ticks == [] then TrackingState(held, [])
    else
      var t := ticks[0];
      var first := TrackingTick(held, t.anyInTransit, t.available, t.nextId);
      var rest := Run(first.held, ticks[1..]);
      TrackingState(rest.held, first.events + rest.events)
  }

  /** Over any run of ticks the watch is started and released strictly in
      turn: no second start while one is held, no release of nothing. */
  lemma {:induction false} RunKeepsConsistent(log: seq<WatchEvent>, held: Option<WatchId>, ticks: seq<TickInput>)
    requires Consistent(log, held)
    ensures Consistent(log + Run(held, ticks).events, Run(held, ticks).held)
    decreases |ticks|
  {
    if ticks == [] {
      assert log + [] == log;
    } else {
      var t := ticks[0];
      var first := TrackingTick(held, t.anyInTransit, t.available, t.nextId);
      TickKeepsConsistent(log, held, t.anyInTransit, t.available, t.nextId);
      var mid, rest := log + first.events, Run(first.held, ticks[1..]);
      RunKeepsConsistent(mid, first.held, ticks[1..]);
      assert Run(held, ticks) == TrackingState(rest.held, first.events + rest.events);
      assert (log + first.events) + rest.events == log + (first.events + rest.events);
    }
  }

  /** The courier screen's state over the shared store. */
  class CourierSession {
    const store: Store
    const courier: string
    var activeOrders: seq<Order>
    var completedOrders: seq<Order>
    var watch: Option<WatchId>     // the held position watch, if any
    ghost var log: seq<WatchEvent> // every start and release so far

    /** The start/stop log is in step with the held watch, and the cards
        shown are the courier's own unfinished orders. */
    ghost predicate Valid()
      reads this
    {
      Consistent(log, watch) &&
      forall o :: o in activeOrders ==> o.deliveryAssignedTo == Some(courier) && !IsTerminal(o.status)
    }

    /** The screen before its first refresh: no watch held. */
    constructor (store: Store)
      ensures Valid()
      ensures this.store == store && courier == CurrentCourier
      ensures activeOrders == [] && completedOrders == [] && watch.None? && log == []
    {
      this.store := store;
      courier := CurrentCourier;
      activeOrders, completedOrders := [], [];
      watch := None;
      log := [];
    }

    /** Asks the capability for a watch, when it exists. Only called while
        no watch is held. */
    method StartTracking(available: bool, nextId: WatchId)
      requires watch.None?
      modifies this`watch, this`log
      ensures available ==> watch == Some(nextId) && log == old(log) + [Started(nextId)]
      ensures !available ==> watch == old(watch) && log == old(log)
    {
      if !available {
        return;
      }
      watch := Some(nextId);
      log := log + [Started(nextId)];
    }

    /** Releases the held watch. */
    method ClearWatch()
      requires watch.Some?
      modifies this`watch, this`log
      ensures watch.None? && log == old(log) + [Stopped(old(watch).value)]
    {
      log := log + [Stopped(watch.value)];
      watch := None;
    }

    /** One polling tick: re-read the courier's orders, then hold a watch
        exactly while one of them is on its way. It never writes the store. */
    method Refresh(available: bool, nextId: WatchId)
      requires Valid()
      modifies this`activeOrders, this`completedOrders, this`watch, this`log
      ensures Valid()
      ensures activeOrders == ActiveFor(store.GetOrders(), courier)
      ensures completedOrders == CompletedFor(store.GetOrders(), courier)
      ensures var r := TrackingTick(old(watch), AnyInTransit(activeOrders), available, nextId);
              watch == r.held && log == old(log) + r.events
    {
      var all := store.GetOrders();
      var active := ActiveFor(all, courier);
      activeOrders := active;
      completedOrders := CompletedFor(all, courier);
      var anyInTransit := AnyInTransit(active);
      ghost var before, held := log, watch;
      if anyInTransit && watch.None? {
        StartTracking(available, nextId);
      } else if !anyInTransit && watch.Some? {
        ClearWatch();
      }
      TickKeepsConsistent(before, held, anyInTransit, available, nextId);
      if log == before {
        assert before + [] == before;
      }
    }

    /** A position delivered to the held watch: positions only arrive while
        a watch is held. */
    method OnPosition(location: LatLng)
      requires watch.Some?
      modifies store`locations, store`ordersBlob
      ensures store.locations == old(store.locations)[courier := location]
      ensures store.GetOrders() == WithLocation(old(store.GetOrders()), courier, location)
    {
      store.UpdateDeliveryLocation(courier, location);
    }

    /** Writes the new status, then, on a pick-up, asks for a single-shot
        position read, then refreshes; the read reports its position once it
        arrives (`position` is None when the read fails). Without the
        positioning capability the read itself fails: the handler stops
        right after the status write, before the refresh, and `finished`
        is false. */
    method UpdateStatus(orderId: string, status: OrderStatus, position: Option<LatLng>,
                        available: bool, nextId: WatchId) returns (finished: bool)
      requires Valid()
      modifies store`ordersBlob, store`locations,
               this`activeOrders, this`completedOrders, this`watch, this`log
      ensures Valid()
      ensures finished <==> !(status == IN_TRANSIT && !available)
      ensures var written := WithStatus(old(store.GetOrders()), orderId, status);
              if status == IN_TRANSIT && available && position.Some?
              then store.GetOrders() == WithLocation(written, courier, position.value) &&
                   store.locations == old(store.locations)[courier := position.value]
              else store.GetOrders() == written && store.locations == old(store.locations)
      ensures !finished ==>
                activeOrders == old(activeOrders) && completedOrders == old(completedOrders) &&
                watch == old(watch) && log == old(log)
      ensures finished ==>
                var written := WithStatus(old(store.GetOrders()), orderId, status);
                activeOrders == ActiveFor(written, courier) &&
                completedOrders == CompletedFor(written, courier) &&
                var r := TrackingTick(old(watch), AnyInTransit(activeOrders), available, nextId);
                watch == r.held && log == old(log) + r.events
    {
      store.UpdateOrderStatus(orderId, status);
      if status == IN_TRANSIT && !available {
        return false;
      }
      Refresh(available, nextId);
      if status == IN_TRANSIT && position.Some? {
        store.UpdateDeliveryLocation(courier, position.value);
      }
      finished := true;
    }

    /** Pressing the button on a card of either list: the status the card
        offers is written through UpdateStatus. When the card is up to date
        with the store, every stored status change is an allowed step, and a
        pick-up leaves a watch held whenever positioning exists. */
    method PressCardButton(order: Order, position: Option<LatLng>, available: bool, nextId: WatchId)
      returns (finished: bool)
      requires Valid()
      requires order in ReadyToPickUp(activeOrders) || order in InTransitOrders(activeOrders)
      modifies store`ordersBlob, store`locations,
               this`activeOrders, this`completedOrders, this`watch, this`log
      ensures Valid()
      ensures finished <==> !(CardAction(order) == IN_TRANSIT && !available)
      ensures var written := WithStatus(old(store.GetOrders()), order.id, CardAction(order));
              if CardAction(order) == IN_TRANSIT && available && position.Some?
              then store.GetOrders() == WithLocation(written, courier, position.value) &&
                   store.locations == old(store.locations)[courier := position.value]
              else store.GetOrders() == written && store.locations == old(store.locations)
      ensures !finished ==>
                activeOrders == old(activeOrders) && completedOrders == old(completedOrders) &&
                watch == old(watch) && log == old(log)
      ensures finished ==>
                var written := WithStatus(old(store.GetOrders()), order.id, CardAction(order));
                activeOrders == ActiveFor(written, courier) &&
                completedOrders == CompletedFor(written, courier) &&
                var r := TrackingTick(old(watch), AnyInTransit(activeOrders), available, nextId);
                watch == r.held && log == old(log) + r.events
      ensures CardAction(order) == IN_TRANSIT && available && order in old(store.GetOrders()) ==>
                watch.Some?
      ensures SameStatuses(WithStatus(old(store.GetOrders()), order.id, CardAction(order)), store.GetOrders())
      ensures Agrees(old(store.GetOrders()), order.id, order.status) ==>
                StepsAllowed(old(store.GetOrders()), store.GetOrders())
    {
      ghost var before := store.GetOrders();
      var status := CardAction(order);
      CardActionAllowed(activeOrders, order);
      assert order in activeOrders;
      finished := UpdateStatus(order.id, status, position, available, nextId);
      assert SameStatuses(WithStatus(before, order.id, status), store.GetOrders());
      StatusWriteAllowed(before, order.id, order.status, status, store.GetOrders());
      if status == IN_TRANSIT && available && order in before {
        PickupPutsInTransit(before, order, courier);
      }
    }

    /** Closing the screen releases any held watch. */
    method Unmount()
      requires Valid()
      modifies this`watch, this`log
      ensures Valid() && watch.None?
      ensures old(watch).Some? ==> log == old(log) + [Stopped(old(watch).value)]
      ensures old(watch).None? ==> log == old(log)
    {
      if watch.Some? {
        ClearWatch();
        assert (log)[..|log| - 1] == old(log);
      }
    }
  }
}
