// controller/CourierOrderController.java: a courier affiliated with a
// restaurant lists that restaurant's PENDING orders and claims one of them.
module CourierOrderController {
  import opened Domain
  import opened Persistence

  /** Why a courier's request is refused. */
  datatype CourierOrderError =
    | NotAssigned       // no courier with that e-mail, or one without a restaurant
    | OrderNotFound     // the RuntimeException of findById(...).orElseThrow
    | NullReference     // an order without a restaurant
    | OtherRestaurant
    | AlreadyAccepted
  {
    /** The HTTP status the controller answers with. */
    function Code(): int
    {
      match this
      case NotAssigned => 400
      case OrderNotFound => 500
      case NullReference => 500
      case OtherRestaurant => 403
      case AlreadyAccepted => 400
    }
  }

  /** The courier and its restaurant, the first check of both endpoints. */
  ghost function Affiliation(w: World, email: string): (r: Result<(CourierId, RestaurantId), CourierOrderError>)
    ensures r.Ok? <==> CourierByEmail(w, email).Some? && w.couriers[CourierByEmail(w, email).value].restaurantOwner.Some?
    ensures r.Ok? ==> r.value.0 == CourierByEmail(w, email).value && w.couriers[r.value.0].restaurantOwner == Some(r.value.1)
  {
    CourierByEmailFound(w, email);
    match CourierByEmail(w, email)
    case None => Err(NotAssigned)
    case Some(c) =>
      match w.couriers[c].restaurantOwner
      case None => Err(NotAssigned)
      case Some(rid) => Ok((c, rid))
  }

  /** Lines 48-50: the orders of the restaurant whose stored status is the string "PENDING". */
  function PendingOrdersOf(orders: map<OrderId, Order>, rid: RestaurantId): set<OrderId>
  {
    set o | o in orders && orders[o].restaurant == Some(rid) && orders[o].status.Name() == "PENDING"
  }

  /** CourierOrderController.getActiveOrdersForCourier on a snapshot. */
  ghost function ActiveOrdersSpec(w: World, email: string): Result<set<OrderId>, CourierOrderError>
  {
    match Affiliation(w, email)
    case Err(e) => Err(e)
    case Ok((_, rid)) => Ok(PendingOrdersOf(w.orders, rid))
  }

  /** CourierOrderController.acceptOrder on a snapshot. */
  ghost function AcceptOrderSpec(w: World, email: string, orderId: OrderId): (res: (Result<(), CourierOrderError>, World))
    ensures res.0.Err? ==> res.1 == w
  {
    match Affiliation(w, email)
    case Err(e) => (Err(e), w)
    case Ok((c, rid)) =>
      if orderId !in w.orders then (Err(OrderNotFound), w)
      else
        var order := w.orders[orderId];
        if order.restaurant.None? then (Err(NullReference), w)
        else if order.restaurant.value != rid then (Err(OtherRestaurant), w)
        else if order.courier.Some? then (Err(AlreadyAccepted), w)
        else (Ok(()), w.(orders := w.orders[orderId := order.(courier := Some(c), status := InProgress)]))
  }

  /**
   * The active list is exactly the PENDING orders of the courier's own
   * restaurant, and an unaffiliated courier gets no list.
   */
  lemma ActiveOrdersExact(w: World, email: string, o: OrderId)
    requires Consistent(w)
    ensures ActiveOrdersSpec(w, email).Err? <==>
      CourierByEmail(w, email).None? || w.couriers[CourierByEmail(w, email).value].restaurantOwner.None?
    ensures ActiveOrdersSpec(w, email).Ok? ==>
      (o in ActiveOrdersSpec(w, email).value <==>
        && o in w.orders
        && w.orders[o].restaurant == w.couriers[CourierByEmail(w, email).value].restaurantOwner
        && w.orders[o].status == Pending)
  {
    if o in w.orders && w.orders[o].status.Name() == "PENDING" {
      NameInjective(w.orders[o].status, Pending);
    }
  }

  /**
   * An order is claimed exactly when the courier is affiliated, the order
   * exists, belongs to the courier's restaurant and has no courier yet; the
   * claim sets the courier and overwrites the status with IN_PROGRESS,
   * whatever it was.
   */
  lemma AcceptOrderOk(w: World, email: string, orderId: OrderId)
    ensures AcceptOrderSpec(w, email, orderId).0.Ok? <==>
      && Affiliation(w, email).Ok?
      && orderId in w.orders
      && w.orders[orderId].restaurant == Some(Affiliation(w, email).value.1)
      && w.orders[orderId].courier.None?
    ensures AcceptOrderSpec(w, email, orderId).0.Ok? ==>
      var w' := AcceptOrderSpec(w, email, orderId).1;
      && w'.orders[orderId].courier == Some(CourierByEmail(w, email).value)
      && w'.orders[orderId].status == InProgress
      && w'.orders[orderId].items == w.orders[orderId].items
      && w'.orders[orderId].totalAmount == w.orders[orderId].totalAmount
      && w'.orders.Keys == w.orders.Keys
      && (forall o :: o in w.orders && o != orderId ==> w'.orders[o] == w.orders[o])
      && w' == w.(orders := w'.orders)
  {
  }

  /** An order that already has a courier is never reassigned through this path, whoever asks. */
  lemma AcceptOrderNeverReassigns(w: World, email: string, orderId: OrderId)
    requires orderId in w.orders && w.orders[orderId].courier.Some?
    ensures AcceptOrderSpec(w, email, orderId).0.Err?
    ensures AcceptOrderSpec(w, email, orderId).1 == w
  {
  }

  /** Of two accepts in a row on the same order, the first succeeds and the second, by any courier, fails. */
  lemma AcceptTwice(w: World, email: string, email2: string, orderId: OrderId)
    requires AcceptOrderSpec(w, email, orderId).0.Ok?
    ensures var w1 := AcceptOrderSpec(w, email, orderId).1;
      && AcceptOrderSpec(w1, email2, orderId).0.Err?
      && (email2 == email ==> AcceptOrderSpec(w1, email2, orderId).0 == Err(AlreadyAccepted))
  {
    var w1 := AcceptOrderSpec(w, email, orderId).1;
    assert w1.couriers == w.couriers;
    assert CourierByEmail(w1, email2) == CourierByEmail(w, email2);
  }

  /** A claimed order leaves the restaurant's active list, and the list loses nothing else. */
  lemma AcceptedLeavesActiveList(w: World, email: string, orderId: OrderId, rid: RestaurantId)
    requires AcceptOrderSpec(w, email, orderId).0.Ok?
    ensures PendingOrdersOf(AcceptOrderSpec(w, email, orderId).1.orders, rid) == PendingOrdersOf(w.orders, rid) - {orderId}
  {
  }

  /** Claiming an order keeps the database consistent: the courier assigned exists. */
  lemma AcceptOrderConsistent(w: World, email: string, orderId: OrderId)
    requires Consistent(w)
    ensures Consistent(AcceptOrderSpec(w, email, orderId).1)
  {
    var (r, w') := AcceptOrderSpec(w, email, orderId);
    if r.Ok? {
      assert OrderRefsOk(w'.orders[orderId], w.menu, w.customers, w.restaurants, w.couriers);
      assert OrderRefs(w'.orders, w'.menu, w'.customers, w'.restaurants, w'.couriers);
      assert PaymentRefs(w'.payments, w'.orders);
      assert StatusesCanonical(w'.orders);
    }
  }

  /** The courier and its restaurant, as both endpoints look them up. */
  method FindAffiliation(db: Store, email: string) returns (r: Result<(CourierId, RestaurantId), CourierOrderError>)
    requires db.Valid()
    ensures r == Affiliation(db.View(), email)
  {
    var found := FindCourier(db, email);
    CourierByEmailFound(db.View(), email);
    if found.None? || db.couriers[found.value].restaurantOwner.None? {
      return Err(NotAssigned);
    }
    r := Ok((found.value, db.couriers[found.value].restaurantOwner.value));
  }

  /** CourierOrderController.getActiveOrdersForCourier; the list is returned as the set of order ids. */
  method GetActiveOrdersForCourier(db: Store, email: string) returns (r: Result<set<OrderId>, CourierOrderError>)
    requires db.Valid()
    ensures r == ActiveOrdersSpec(db.View(), email)
  {
    var a := FindAffiliation(db, email);
    if a.Err? {
      return Err(a.error);
    }
    r := Ok(PendingOrdersOf(db.orders, a.value.1));
  }

  /** CourierOrderController.acceptOrder. */
  method AcceptOrder(db: Store, email: string, orderId: OrderId) returns (r: Result<(), CourierOrderError>)
    requires db.Valid()
    modifies db`orders
    ensures (r, db.View()) == AcceptOrderSpec(old(db.View()), email, orderId)
    ensures db.Valid()
  {
    var a := FindAffiliation(db, email);
    if a.Err? {
      return Err(a.error);
    }
    var (courier, rid) := a.value;
    if orderId !in db.orders {
      return Err(OrderNotFound);
    }
    var order := db.orders[orderId];
    if order.restaurant.None? {
      return Err(NullReference);
    }
    if order.restaurant.value != rid {
      return Err(OtherRestaurant);
    }
    if order.courier.Some? {
      return Err(AlreadyAccepted);
    }
    AcceptOrderConsistent(db.View(), email, orderId);
    db.orders := db.orders[orderId := order.(courier := Some(courier), status := InProgress)];
    r := Ok(());
  }
}
