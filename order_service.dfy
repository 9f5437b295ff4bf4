// service/OrderService.java: turning a cart into an order (a copy of the
// lines, the total, the payment record with a masked card number, then an
// emptied cart) and a customer's cancellation of their own order.
module OrderService {
  import opened Domain
  import opened Carts
  import opened Persistence

  // ---------------------------------------------------------------------
  // maskCardNumber
  // ---------------------------------------------------------------------

  const MaskPrefix: string := "**** **** **** "

  /** OrderService.maskCardNumber: a null or short number is fully hidden, otherwise only its last four characters remain. */
  function MaskCardNumber(number: Option<string>): (r: string)
    ensures |r| == 4 || |r| == 19
    ensures |r| == 4 <==> number.None? || |number.value| < 4
    ensures |r| == 19 ==> r[..15] == MaskPrefix && r[15..] == number.value[|number.value| - 4..]
  {
    if number.None? || |number.value| < 4 then "****"
    else MaskPrefix + number.value[|number.value| - 4..]
  }

  /** Two numbers with the same last four characters get the same mask: nothing else of the number is kept. */
  lemma MaskKeepsOnlyLastFour(a: string, b: string)
    requires |a| >= 4 && |b| >= 4 && a[|a| - 4..] == b[|b| - 4..]
    ensures MaskCardNumber(Some(a)) == MaskCardNumber(Some(b))
  {
  }

  /**
   * Masking a mask of a real number changes nothing, since a mask ends in
   * the number's last four characters (a short number's "****" is not a
   * fixed point: it has four characters and is masked again).
   */
  lemma MaskIdempotent(number: string)
    requires |number| >= 4
    ensures MaskCardNumber(Some(MaskCardNumber(Some(number)))) == MaskCardNumber(Some(number))
  {
    var m := MaskCardNumber(Some(number));
    assert m[|m| - 4..] == m[15..];
  }

  // ---------------------------------------------------------------------
  // The items total: Σ price × quantity over the lines (a stream sum)
  // ---------------------------------------------------------------------

  /** price × quantity of one line; prices are integer minor units. */
  function LineTotal(menu: map<ItemId, MenuItem>, item: ItemId, quantity: int): int
  {
    (if item in menu then menu[item].price else 0) * quantity
  }

  /** The sum of the line totals, in no particular order. */
  ghost function ItemsTotal(menu: map<ItemId, MenuItem>, items: map<ItemId, int>): int
    decreases |items|
  {
    if items == map[] then 0
    else
      assert exists k :: k in items by { var x := SomeKey(items); }
      var k :| k in items;
      assert |items - {k}| < |items| by { assert items.Keys - {k} < items.Keys; }
      LineTotal(menu, k, items[k]) + ItemsTotal(menu, items - {k})
  }

  /** Any line can be taken out first: the sum does not depend on the iteration order. */
  lemma {:induction false} ItemsTotalRemove(menu: map<ItemId, MenuItem>, items: map<ItemId, int>, k: ItemId)
    requires k in items
    ensures ItemsTotal(menu, items) == LineTotal(menu, k, items[k]) + ItemsTotal(menu, items - {k})
    decreases |items|
  {
    var j :| j in items && ItemsTotal(menu, items) == LineTotal(menu, j, items[j]) + ItemsTotal(menu, items - {j});
    if j != k {
      assert |items - {j}| < |items| by { assert items.Keys - {j} < items.Keys; }
      assert |items - {k}| < |items| by { assert items.Keys - {k} < items.Keys; }
      ItemsTotalRemove(menu, items - {j}, k);
      ItemsTotalRemove(menu, items - {k}, j);
      assert items - {j} - {k} == items - {k} - {j};
    }
  }

  /** Adding a new line adds its line total. */
  lemma ItemsTotalInsert(menu: map<ItemId, MenuItem>, items: map<ItemId, int>, k: ItemId, quantity: int)
    requires k !in items
    ensures ItemsTotal(menu, items[k := quantity]) == ItemsTotal(menu, items) + LineTotal(menu, k, quantity)
  {
    ItemsTotalRemove(menu, items[k := quantity], k);
    assert items[k := quantity] - {k} == items;
  }

  /**
   * A cart merge without overflow raises the items total by exactly
   * price × added quantity, whether the line was new or not.
   */
  lemma ItemsTotalMerged(menu: map<ItemId, MenuItem>, items: map<ItemId, int>, k: ItemId, quantity: int)
    requires k in items ==> IsInt32(items[k] + quantity)
    ensures ItemsTotal(menu, Merged(items, k, quantity)) == ItemsTotal(menu, items) + LineTotal(menu, k, quantity)
  {
    if k in items {
      var merged := Merged(items, k, quantity);
      assert merged[k] == items[k] + quantity;
      ItemsTotalRemove(menu, items, k);
      ItemsTotalRemove(menu, merged, k);
      assert merged - {k} == items - {k};
      var p := if k in menu then menu[k].price else 0;
      assert p * (items[k] + quantity) == p * items[k] + p * quantity;
    } else {
      ItemsTotalInsert(menu, items, k, quantity);
    }
  }

  /** The stream sum of lines 60-62, as a loop over the lines. */
  method SumLines(menu: map<ItemId, MenuItem>, items: map<ItemId, int>) returns (total: int)
    ensures total == ItemsTotal(menu, items)
  {
    total := 0;
    var rest := items;
    while rest != map[]
      invariant total + ItemsTotal(menu, rest) == ItemsTotal(menu, items)
      decreases |rest|
    {
      ghost var some := SomeKey(rest);
      var k :| k in rest;
      ItemsTotalRemove(menu, rest, k);
      total := total + LineTotal(menu, k, rest[k]);
      assert rest.Keys - {k} < rest.Keys;
      rest := rest - {k};
    }
  }

  // ---------------------------------------------------------------------
  // createOrder
  // ---------------------------------------------------------------------

  predicate IsCreditCard(paymentMethod: string)
  {
    EqualsIgnoreCase(paymentMethod, "CREDIT_CARD")
  }

  /** A null tip counts as zero in the total. */
  function TipOrZero(tip: Option<int>): int
  {
    if tip.Some? then tip.value else 0
  }

  /** The order built by lines 44-70, from the cart's lines and the line the iterator returns first. */
  ghost function NewOrder(menu: map<ItemId, MenuItem>, cid: CustomerId, items: map<ItemId, int>, deliveryAddress: string, paymentMethod: string,
                          deliveryType: string, tip: Option<int>, orderUuid: string, first: ItemId): Order
  {
    Order(
      "order-" + orderUuid,
      Some(cid),
      if items == map[] then None else ItemRestaurant(menu, first),
      None,
      items,
      deliveryAddress,
      paymentMethod,
      deliveryType,
      Pending,
      ItemsTotal(menu, items) + TipOrZero(tip),
      if tip.Some? && tip.value > 0 then tip.value else 0)
  }

  /** The payment of lines 75-86: card data only for a credit-card payment, with the number masked and the CVC hidden. */
  function NewPayment(orderId: OrderId, paymentMethod: string, cardNumber: Option<string>, expiryDate: Option<string>, payUuid: string): (p: Payment)
    ensures p.orderId == orderId && p.status == "PAID"
    ensures p.cvc.Some? <==> IsCreditCard(paymentMethod)
    ensures p.cvc.Some? ==> p.cvc.value == "****" && p.cardNumber == Some(MaskCardNumber(cardNumber)) && p.expiryDate == expiryDate
    ensures p.cvc.None? ==> p.cardNumber.None? && p.expiryDate.None?
  {
    if IsCreditCard(paymentMethod)
    then Payment("pay-" + payUuid, orderId, paymentMethod, "PAID", Some(MaskCardNumber(cardNumber)), expiryDate, Some("****"))
    else Payment("pay-" + payUuid, orderId, paymentMethod, "PAID", None, None, None)
  }

  /**
   * OrderService.createOrder on a snapshot: save the order, save the
   * payment, empty the customer's cart. The CVC argument is never stored.
   */
  ghost function CreateOrderSpec(w: World, cid: CustomerId, deliveryAddress: string, paymentMethod: string, deliveryType: string,
                                 cardNumber: Option<string>, expiryDate: Option<string>, tip: Option<int>,
                                 orderUuid: string, payUuid: string, first: ItemId): (res: (Order, World))
    requires cid in w.carts
  {
    var items := w.carts[cid].items;
    var order := NewOrder(w.menu, cid, items, deliveryAddress, paymentMethod, deliveryType, tip, orderUuid, first);
    var payment := NewPayment(order.orderId, paymentMethod, cardNumber, expiryDate, payUuid);
    (order, w.(orders := w.orders[order.orderId := order],
               payments := w.payments[payment.paymentId := payment],
               carts := w.carts[cid := w.carts[cid].(items := map[])]))
  }

  /**
   * What a created order is: PENDING, a copy of the cart's lines that the
   * cart's clearing does not touch, total = Σ price × quantity + tip (a null
   * tip counting as 0), a tip recorded only when positive, and the cart
   * empty afterwards; nothing but orders, payments and that cart changes.
   */
  lemma CreateOrderShape(w: World, cid: CustomerId, deliveryAddress: string, paymentMethod: string, deliveryType: string,
                         cardNumber: Option<string>, expiryDate: Option<string>, tip: Option<int>,
                         orderUuid: string, payUuid: string, first: ItemId)
    requires cid in w.carts
    ensures var (o, w') := CreateOrderSpec(w, cid, deliveryAddress, paymentMethod, deliveryType, cardNumber, expiryDate, tip, orderUuid, payUuid, first);
      && o.status == Pending && o.customer == Some(cid) && o.courier.None?
      && w'.orders[o.orderId] == o
      && o.items == w.carts[cid].items
      && w'.carts[cid].items == map[]
      && o.totalAmount == ItemsTotal(w.menu, w.carts[cid].items) + (if tip.None? then 0 else tip.value)
      && (o.tipAmount != 0 <==> tip.Some? && tip.value > 0)
      && (o.tipAmount != 0 ==> o.tipAmount == tip.value)
      && w'.menu == w.menu && w'.restaurants == w.restaurants && w'.customers == w.customers
      && w'.couriers == w.couriers && w'.requests == w.requests
  {
  }

  /** With a single-restaurant cart, the order's restaurant is the restaurant of every line, whichever came first. */
  lemma CreateOrderRestaurant(w: World, cid: CustomerId, deliveryAddress: string, paymentMethod: string, deliveryType: string,
                              cardNumber: Option<string>, expiryDate: Option<string>, tip: Option<int>,
                              orderUuid: string, payUuid: string, first: ItemId)
    requires cid in w.carts && w.carts[cid].items != map[] && first in w.carts[cid].items
    requires SingleRestaurant(w.menu, w.carts[cid].items)
    ensures var o := CreateOrderSpec(w, cid, deliveryAddress, paymentMethod, deliveryType, cardNumber, expiryDate, tip, orderUuid, payUuid, first).0;
      o.restaurant.Some? && forall i :: i in w.carts[cid].items ==> ItemRestaurant(w.menu, i) == o.restaurant
  {
  }

  /** With a single-restaurant cart, which line the iterator returns first does not change the order or the database. */
  lemma CreateOrderFirstIrrelevant(w: World, cid: CustomerId, deliveryAddress: string, paymentMethod: string, deliveryType: string,
                                   cardNumber: Option<string>, expiryDate: Option<string>, tip: Option<int>,
                                   orderUuid: string, payUuid: string, f1: ItemId, f2: ItemId)
    requires cid in w.carts && SingleRestaurant(w.menu, w.carts[cid].items)
    requires w.carts[cid].items != map[] ==> f1 in w.carts[cid].items && f2 in w.carts[cid].items
    ensures CreateOrderSpec(w, cid, deliveryAddress, paymentMethod, deliveryType, cardNumber, expiryDate, tip, orderUuid, payUuid, f1)
         == CreateOrderSpec(w, cid, deliveryAddress, paymentMethod, deliveryType, cardNumber, expiryDate, tip, orderUuid, payUuid, f2)
  {
    if w.carts[cid].items != map[] {
      assert ItemRestaurant(w.menu, f1) == ItemRestaurant(w.menu, f2);
    }
  }

  /** Ordering a cart keeps the database consistent. */
  lemma CreateOrderConsistent(w: World, cid: CustomerId, deliveryAddress: string, paymentMethod: string, deliveryType: string,
                              cardNumber: Option<string>, expiryDate: Option<string>, tip: Option<int>,
                              orderUuid: string, payUuid: string, first: ItemId)
    requires Consistent(w) && cid in w.carts && cid in w.customers
    requires w.carts[cid].items != map[] ==> first in w.carts[cid].items
    ensures Consistent(CreateOrderSpec(w, cid, deliveryAddress, paymentMethod, deliveryType, cardNumber, expiryDate, tip, orderUuid, payUuid, first).1)
  {
    var (o, w') := CreateOrderSpec(w, cid, deliveryAddress, paymentMethod, deliveryType, cardNumber, expiryDate, tip, orderUuid, payUuid, first);
    assert OrderRefsOk(o, w.menu, w.customers, w.restaurants, w.couriers);
    assert OrderRefs(w'.orders, w'.menu, w'.customers, w'.restaurants, w'.couriers);
    assert PaymentRefs(w'.payments, w'.orders);
    CartUpdateConsistent(w, cid, w.carts[cid].(items := map[]));
    var w2 := w.(carts := w.carts[cid := w.carts[cid].(items := map[])]);
    assert w' == w2.(orders := w'.orders, payments := w'.payments);
  }

  /**
   * OrderService.createOrder. The controller hands over the customer and
   * the cart entity it loaded; the UUIDs are parameters.
   */
  method CreateOrder(db: Store, cid: CustomerId, cart: Cart, deliveryAddress: string, paymentMethod: string, deliveryType: string,
                     cardNumber: Option<string>, expiryDate: Option<string>, cvc: Option<string>, tip: Option<int>,
                     orderUuid: string, payUuid: string) returns (order: Order, ghost first: ItemId)
    requires db.Valid() && cid in db.customers && cid in db.carts && cart.Row() == db.carts[cid]
    modifies db`orders, db`payments, db`carts, cart
    ensures (order, db.View()) == CreateOrderSpec(old(db.View()), cid, deliveryAddress, paymentMethod, deliveryType, cardNumber, expiryDate, tip, orderUuid, payUuid, first)
    ensures old(cart.items) != map[] ==> first in old(cart.items)
    ensures db.Valid()
  {
    ghost var w := db.View();
    order, first := BuildOrder(db.menu, cid, cart, deliveryAddress, paymentMethod, deliveryType, tip, orderUuid);
    var payment := BuildPayment(order.orderId, paymentMethod, cardNumber, expiryDate, payUuid);
    CreateOrderConsistent(w, cid, deliveryAddress, paymentMethod, deliveryType, cardNumber, expiryDate, tip, orderUuid, payUuid, first);
    SaveOrder(db, cid, cart, order, payment);
  }

  /** Lines 75-86: the payment entity, with card data only for a credit card. */
  method BuildPayment(orderId: OrderId, paymentMethod: string, cardNumber: Option<string>, expiryDate: Option<string>, payUuid: string)
    returns (payment: Payment)
    ensures payment == NewPayment(orderId, paymentMethod, cardNumber, expiryDate, payUuid)
  {
    if EqualsIgnoreCase("CREDIT_CARD", paymentMethod) {
      payment := Payment("pay-" + payUuid, orderId, paymentMethod, "PAID", Some(MaskCardNumber(cardNumber)), expiryDate, Some("****"));
    } else {
      payment := Payment("pay-" + payUuid, orderId, paymentMethod, "PAID", None, None, None);
    }
  }

  /** Lines 88-91: save the order and the payment, then clear and save the cart. */
  method SaveOrder(db: Store, cid: CustomerId, cart: Cart, order: Order, payment: Payment)
    requires cid in db.carts && cart.Row() == db.carts[cid]
    modifies db`orders, db`payments, db`carts, cart
    ensures db.View() == old(db.View()).(orders := old(db.orders)[order.orderId := order],
                                         payments := old(db.payments)[payment.paymentId := payment],
                                         carts := old(db.carts)[cid := old(db.carts)[cid].(items := map[])])
  {
    db.orders := db.orders[order.orderId := order];
    db.payments := db.payments[payment.paymentId := payment];
    cart.Clear();
    db.SaveCart(cid, cart);
  }

  /** Lines 44-70: the order entity built from the cart, before it is saved. */
  method BuildOrder(menu: map<ItemId, MenuItem>, cid: CustomerId, cart: Cart, deliveryAddress: string, paymentMethod: string,
                    deliveryType: string, tip: Option<int>, orderUuid: string) returns (order: Order, ghost first: ItemId)
    ensures cart.items != map[] ==> first in cart.items
    ensures order == NewOrder(menu, cid, cart.items, deliveryAddress, paymentMethod, deliveryType, tip, orderUuid, first)
  {
    first := 0;
    var items := cart.items;
    var restaurant: Option<RestaurantId> := None;
    if items != map[] {
      var f := cart.FirstItem();
      first := f;
      restaurant := ItemRestaurant(menu, f);
    }
    var itemsTotal := SumLines(menu, items);
    var total := itemsTotal + (if tip.Some? then tip.value else 0);
    var tipAmount := 0;
    if tip.Some? && tip.value > 0 {
      tipAmount := tip.value;
    }
    order := Order("order-" + orderUuid, Some(cid), restaurant, None, items, deliveryAddress, paymentMethod, deliveryType, Pending, total, tipAmount);
  }

  // ---------------------------------------------------------------------
  // cancelOrder
  // ---------------------------------------------------------------------

  /** Why a cancellation is refused. */
  datatype CancelError = NotAuthenticated | OrderNotFound | Unauthorized | NotCancellable

  /** The statuses a customer may cancel from, compared after upper-casing. */
  predicate Cancellable(st: OrderStatus)
  {
    Upper(st.Name()) == "PENDING" || Upper(st.Name()) == "IN_PROGRESS"
  }

  /**
   * OrderService.cancelOrder on a snapshot. `principal` is the
   * authenticated caller's name (an e-mail), None when nobody is
   * authenticated.
   */
  function CancelOrderSpec(w: World, principal: Option<string>, orderId: OrderId): (res: (Result<(), CancelError>, World))
    ensures res.0.Err? ==> res.1 == w
  {
    if principal.None? then (Err(NotAuthenticated), w)
    else if orderId !in w.orders then (Err(OrderNotFound), w)
    else
      var o := w.orders[orderId];
      if o.customer.None? || o.customer.value !in w.customers || w.customers[o.customer.value].user.email != principal.value
      then (Err(Unauthorized), w)
      else if !Cancellable(o.status) then (Err(NotCancellable), w)
      else (Ok(()), w.(orders := w.orders[orderId := o.(status := CancelledByCustomer)]))
  }

  /**
   * A cancellation succeeds exactly for an existing order of the caller in
   * PENDING or IN_PROGRESS (in any letter case), and then only that order's
   * status changes, to CANCELLED_BY_CUSTOMER.
   */
  lemma CancelOrderOk(w: World, principal: Option<string>, orderId: OrderId)
    ensures var (r, w') := CancelOrderSpec(w, principal, orderId);
      && (r.Ok? <==>
           && principal.Some? && orderId in w.orders
           && w.orders[orderId].customer.Some? && w.orders[orderId].customer.value in w.customers
           && w.customers[w.orders[orderId].customer.value].user.email == principal.value
           && Cancellable(w.orders[orderId].status))
      && (r.Ok? ==> w' == w.(orders := w.orders[orderId := w.orders[orderId].(status := CancelledByCustomer)]))
  {
  }

  /** A cancelled order cannot be cancelled again: the second call fails and changes nothing. */
  lemma CancelTwiceFails(w: World, principal: Option<string>, orderId: OrderId)
    requires CancelOrderSpec(w, principal, orderId).0.Ok?
    ensures var w' := CancelOrderSpec(w, principal, orderId).1;
      CancelOrderSpec(w', principal, orderId) == (Err(NotCancellable), w')
  {
    var w' := CancelOrderSpec(w, principal, orderId).1;
    assert Upper("CANCELLED_BY_CUSTOMER") == "CANCELLED_BY_CUSTOMER";
  }

  /** Only PENDING and IN_PROGRESS among the enumeration's statuses can be cancelled. */
  lemma CancellableEnumStatuses(st: OrderStatus)
    requires !st.Other?
    ensures Cancellable(st) <==> st == Pending || st == InProgress
  {
    UpperOfUpperCase(st.Name());
  }

  /** OrderService.cancelOrder. */
  method CancelOrder(db: Store, principal: Option<string>, orderId: OrderId) returns (r: Result<(), CancelError>)
    requires db.Valid()
    modifies db`orders
    ensures (r, db.View()) == CancelOrderSpec(old(db.View()), principal, orderId)
    ensures db.Valid()
  {
    if principal.None? {
      return Err(NotAuthenticated);
    }
    if orderId !in db.orders {
      return Err(OrderNotFound);
    }
    var order := db.orders[orderId];
    if order.customer.None? || db.customers[order.customer.value].user.email != principal.value {
      return Err(Unauthorized);
    }
    var current := Upper(order.status.Name());
    if !(current == "PENDING" || current == "IN_PROGRESS") {
      return Err(NotCancellable);
    }
    ghost var w := db.View();
    SetStatusConsistent(w, orderId, CancelledByCustomer);
    db.orders := db.orders[orderId := order.(status := CancelledByCustomer)];
    r := Ok(());
    assert db.View() == w.(orders := w.orders[orderId := order.(status := CancelledByCustomer)]);
  }
}
