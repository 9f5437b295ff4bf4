// controller/OrderController.java: the checks before an order is placed,
// taking one unit or a whole line out of the cart, the restaurant's status
// update of an order, and opening or closing a restaurant.
module OrderController {
  import opened Domain
  import opened Carts
  import opened Persistence
  import opened OrderService
  import CartController

  /** Why a request to the order endpoints is refused. */
  datatype OrderError =
    | CustomerNotFound
    | AccountBanned
    | AccountSuspended
    | CartEmpty
    | RestaurantUnavailable
    | CardInfoRequired
    | MenuItemNotFound
    | ItemNotInCart
    | StatusRequired
    | OrderNotFound
    | RestaurantNotFound
    | NullReference
  {
    /** The HTTP status the controller answers with. */
    function Code(): int
    {
      match this
      case AccountBanned => 403
      case AccountSuspended => 403
      case RestaurantUnavailable => 403
      case MenuItemNotFound => 404
      case ItemNotInCart => 404
      case OrderNotFound => 404
      case RestaurantNotFound => 404
      case NullReference => 500
      case _ => 400
    }
  }

  /** CardInfoDTO: any part may be missing from the request body. */
  datatype CardInfo = CardInfo(cardNumber: Option<string>, expiryDate: Option<string>, cvv: Option<string>)

  /** A credit-card payment needs a card with number, expiry and CVV; other payment methods need nothing. */
  predicate CardOk(paymentMethod: string, card: Option<CardInfo>)
  {
    IsCreditCard(paymentMethod) ==>
      card.Some? && card.value.cardNumber.Some? && card.value.expiryDate.Some? && card.value.cvv.Some?
  }

  /** The card fields handed to the service: null when no card was sent. */
  function CardNumberOf(card: Option<CardInfo>): Option<string> { if card.Some? then card.value.cardNumber else None }
  function ExpiryOf(card: Option<CardInfo>): Option<string> { if card.Some? then card.value.expiryDate else None }
  function CvvOf(card: Option<CardInfo>): Option<string> { if card.Some? then card.value.cvv else None }

  // ---------------------------------------------------------------------
  // createOrder
  // ---------------------------------------------------------------------

  /** Lines 37-79: the checks on the customer, the cart, its restaurant and the card. */
  ghost function CreateOrderGate(w: World, email: string, paymentMethod: string, card: Option<CardInfo>, first: ItemId): (r: Result<CustomerId, OrderError>)
    ensures r.Ok? ==> r.value in w.carts && w.carts[r.value].items != map[]
  {
    match CustomerByEmail(w, email)
    case None => Err(CustomerNotFound)
    case Some(cid) =>
      var status := if cid in w.customers then w.customers[cid].user.accountStatus else "";
      if status == BANNED then Err(AccountBanned)
      else if status == SUSPENDED then Err(AccountSuspended)
      else if CartController.CartItemsOf(w, cid) == map[] then Err(CartEmpty)
      else match ItemRestaurant(w.menu, first)
        case None => Err(NullReference)
        case Some(rid) =>
          if rid !in w.restaurants then Err(NullReference)
          else if Blocked(w.restaurants[rid].user.accountStatus) then Err(RestaurantUnavailable)
          else if !CardOk(paymentMethod, card) then Err(CardInfoRequired)
          else Ok(cid)
  }

  /** OrderController.createOrder on a snapshot, given the UUIDs and which cart line the iterator returns first. */
  ghost function CreateOrderCallSpec(w: World, email: string, deliveryAddress: string, paymentMethod: string, deliveryType: string,
                                     tip: Option<int>, card: Option<CardInfo>, orderUuid: string, payUuid: string, first: ItemId): (res: (Result<Order, OrderError>, World))
    ensures res.0.Err? ==> res.1 == w
  {
    match CreateOrderGate(w, email, paymentMethod, card, first)
    case Err(e) => (Err(e), w)
    case Ok(cid) =>
      var (o, w') := CreateOrderSpec(w, cid, deliveryAddress, paymentMethod, deliveryType, CardNumberOf(card), ExpiryOf(card), tip, orderUuid, payUuid, first);
      (Ok(o), w')
  }

  /** A banned or suspended customer is refused before the cart is looked at. */
  lemma CreateOrderRefusesBlockedCustomer(w: World, email: string, paymentMethod: string, card: Option<CardInfo>, first: ItemId)
    requires CustomerByEmail(w, email).Some? && CustomerByEmail(w, email).value in w.customers
    requires Blocked(w.customers[CustomerByEmail(w, email).value].user.accountStatus)
    ensures CreateOrderGate(w, email, paymentMethod, card, first) ==
      (if w.customers[CustomerByEmail(w, email).value].user.accountStatus == BANNED then Err(AccountBanned) else Err(AccountSuspended))
  {
  }

  /**
   * The order is placed exactly when the customer exists and is not
   * blocked, the cart has lines, its restaurant is not blocked and a
   * credit-card payment comes with full card data.
   */
  lemma CreateOrderGateOk(w: World, email: string, paymentMethod: string, card: Option<CardInfo>, first: ItemId)
    requires Consistent(w)
    requires CustomerByEmail(w, email).Some? ==>
      var cid := CustomerByEmail(w, email).value;
      CartController.CartItemsOf(w, cid) != map[] ==> first in CartController.CartItemsOf(w, cid)
    ensures CreateOrderGate(w, email, paymentMethod, card, first).Ok? <==>
      && CustomerByEmail(w, email).Some?
      && var cid := CustomerByEmail(w, email).value;
      && !Blocked(w.customers[cid].user.accountStatus)
      && CartController.CartItemsOf(w, cid) != map[]
      && !Blocked(w.restaurants[ItemRestaurant(w.menu, first).value].user.accountStatus)
      && CardOk(paymentMethod, card)
  {
    CustomerByEmailFound(w, email);
    if CustomerByEmail(w, email).Some? {
      var cid := CustomerByEmail(w, email).value;
      if CartController.CartItemsOf(w, cid) != map[] {
        assert first in w.carts[cid].items;
        assert SingleRestaurant(w.menu, w.carts[cid].items);
      }
    }
  }

  /** For any payment method but a credit card, the card data sent makes no difference at all. */
  lemma CreateOrderIgnoresCardUnlessCredit(w: World, email: string, deliveryAddress: string, paymentMethod: string, deliveryType: string,
                                           tip: Option<int>, c1: Option<CardInfo>, c2: Option<CardInfo>, orderUuid: string, payUuid: string, first: ItemId)
    requires !IsCreditCard(paymentMethod)
    ensures CreateOrderCallSpec(w, email, deliveryAddress, paymentMethod, deliveryType, tip, c1, orderUuid, payUuid, first)
         == CreateOrderCallSpec(w, email, deliveryAddress, paymentMethod, deliveryType, tip, c2, orderUuid, payUuid, first)
  {
  }

  /** Placing an order keeps the database consistent. */
  lemma CreateOrderCallConsistent(w: World, email: string, deliveryAddress: string, paymentMethod: string, deliveryType: string,
                                  tip: Option<int>, card: Option<CardInfo>, orderUuid: string, payUuid: string, first: ItemId)
    requires Consistent(w)
    requires CustomerByEmail(w, email).Some? ==>
      var cid := CustomerByEmail(w, email).value;
      CartController.CartItemsOf(w, cid) != map[] ==> first in CartController.CartItemsOf(w, cid)
    ensures Consistent(CreateOrderCallSpec(w, email, deliveryAddress, paymentMethod, deliveryType, tip, card, orderUuid, payUuid, first).1)
  {
    var g := CreateOrderGate(w, email, paymentMethod, card, first);
    if g.Ok? {
      CustomerByEmailFound(w, email);
      CreateOrderConsistent(w, g.value, deliveryAddress, paymentMethod, deliveryType, CardNumberOf(card), ExpiryOf(card), tip, orderUuid, payUuid, first);
    }
  }

  /** Lines 37-79 of OrderController.createOrder: the checks, handing on the loaded cart entity. */
  method CheckOrder(db: Store, email: string, paymentMethod: string, card: Option<CardInfo>)
    returns (g: Result<CustomerId, OrderError>, cart: Cart?, ghost first: ItemId)
    requires db.Valid()
    ensures g == CreateOrderGate(db.View(), email, paymentMethod, card, first)
    ensures CustomerByEmail(db.View(), email).Some? ==>
      var cid := CustomerByEmail(db.View(), email).value;
      CartController.CartItemsOf(db.View(), cid) != map[] ==> first in CartController.CartItemsOf(db.View(), cid)
    ensures g.Ok? ==> g.value in db.customers && cart != null && fresh(cart) && cart.Row() == db.carts[g.value]
  {
    ghost var w := db.View();
    first := 0;
    cart := null;
    var found := FindCustomer(db, email);
    if found.None? {
      return Err(CustomerNotFound), cart, first;
    }
    var cid := found.value;
    CustomerByEmailFound(w, email);
    if cid in db.carts && db.carts[cid].items != map[] {
      first := SomeKey(db.carts[cid].items);
    }
    var customer := db.customers[cid];
    if customer.user.accountStatus == BANNED {
      return Err(AccountBanned), cart, first;
    }
    if customer.user.accountStatus == SUSPENDED {
      return Err(AccountSuspended), cart, first;
    }
    cart := db.LoadCart(cid);
    if cart == null || cart.items == map[] {
      return Err(CartEmpty), cart, first;
    }
    var f := cart.FirstItem();
    assert SingleRestaurant(db.menu, cart.items);
    assert ItemRestaurant(db.menu, f) == ItemRestaurant(db.menu, first);
    var rest := db.restaurants[ItemRestaurant(db.menu, f).value];
    if rest.user.accountStatus == BANNED || rest.user.accountStatus == SUSPENDED {
      return Err(RestaurantUnavailable), cart, first;
    }
    if EqualsIgnoreCase(paymentMethod, "CREDIT_CARD") {
      if card.None? || card.value.cardNumber.None? || card.value.expiryDate.None? || card.value.cvv.None? {
        return Err(CardInfoRequired), cart, first;
      }
    }
    g := Ok(cid);
  }

  /** OrderController.createOrder; the UUIDs are parameters, the tip is in minor units. */
  method CreateOrder(db: Store, email: string, deliveryAddress: string, paymentMethod: string, deliveryType: string,
                     tip: Option<int>, card: Option<CardInfo>, orderUuid: string, payUuid: string)
    returns (r: Result<Order, OrderError>, ghost first: ItemId)
    requires db.Valid()
    modifies db`orders, db`payments, db`carts
    ensures (r, db.View()) == CreateOrderCallSpec(old(db.View()), email, deliveryAddress, paymentMethod, deliveryType, tip, card, orderUuid, payUuid, first)
    ensures CustomerByEmail(old(db.View()), email).Some? ==>
      var cid := CustomerByEmail(old(db.View()), email).value;
      CartController.CartItemsOf(old(db.View()), cid) != map[] ==> first in CartController.CartItemsOf(old(db.View()), cid)
    ensures db.Valid()
  {
    ghost var w := db.View();
    var g, cart;
    g, cart, first := CheckOrder(db, email, paymentMethod, card);
    if g.Err? {
      return Err(g.error), first;
    }
    var cid := g.value;
    var order;
    ghost var again;
    order, again := OrderService.CreateOrder(db, cid, cart, deliveryAddress, paymentMethod, deliveryType,
                                             CardNumberOf(card), ExpiryOf(card), CvvOf(card), tip, orderUuid, payUuid);
    // The service may meet another line first; in a one-restaurant cart that changes nothing.
    CreateOrderFirstIrrelevant(w, cid, deliveryAddress, paymentMethod, deliveryType, CardNumberOf(card), ExpiryOf(card), tip, orderUuid, payUuid, again, first);
    r := Ok(order);
  }

  // ---------------------------------------------------------------------
  // removeFromCart and removeAllFromCart
  // ---------------------------------------------------------------------

  /**
   * The quantity map after taking one unit of `item` out: a quantity above
   * one goes down by one, a quantity of one (or less) drops the line.
   */
  function Decremented(items: map<ItemId, int>, item: ItemId): (r: map<ItemId, int>)
    requires item in items
    ensures item in r <==> items[item] > 1
    ensures item in r ==> r[item] == items[item] - 1
    ensures r.Keys <= items.Keys
    ensures forall other :: other in items && other != item ==> other in r && r[other] == items[other]
  {
    if items[item] > 1 then items[item := items[item] - 1] else items - {item}
  }

  /** Lines 151-171 (and 187-207): the customer, a non-empty cart, an existing menu item that is in the cart. */
  ghost function RemoveGate(w: World, email: string, itemId: ItemId): (r: Result<CustomerId, OrderError>)
    ensures r.Ok? ==> r.value in w.carts && itemId in w.carts[r.value].items
  {
    match CustomerByEmail(w, email)
    case None => Err(CustomerNotFound)
    case Some(cid) =>
      if CartController.CartItemsOf(w, cid) == map[] then Err(CartEmpty)
      else if itemId !in w.menu then Err(MenuItemNotFound)
      else if itemId !in w.carts[cid].items then Err(ItemNotInCart)
      else Ok(cid)
  }

  /** OrderController.removeFromCart on a snapshot. */
  ghost function RemoveFromCartSpec(w: World, email: string, itemId: ItemId): (res: (Result<(), OrderError>, World))
    ensures res.0.Err? ==> res.1 == w
  {
    match RemoveGate(w, email, itemId)
    case Err(e) => (Err(e), w)
    case Ok(cid) =>
      var row := w.carts[cid];
      (Ok(()), w.(carts := w.carts[cid := row.(items := Decremented(row.items, itemId))]))
  }

  /** OrderController.removeAllFromCart on a snapshot: the same checks, then the whole line goes. */
  ghost function RemoveAllFromCartSpec(w: World, email: string, itemId: ItemId): (res: (Result<(), OrderError>, World))
    ensures res.0.Err? ==> res.1 == w
  {
    match RemoveGate(w, email, itemId)
    case Err(e) => (Err(e), w)
    case Ok(cid) =>
      var row := w.carts[cid];
      (Ok(()), w.(carts := w.carts[cid := row.(items := row.items - {itemId})]))
  }

  /**
   * Which refusal comes first: no customer, then an empty cart, then an
   * unknown item, then an item missing from the cart; a request passing all
   * four is carried out.
   */
  lemma RemoveGateOutcomes(w: World, email: string, itemId: ItemId)
    ensures var r := RemoveGate(w, email, itemId);
      && (r == Err(CustomerNotFound) <==> CustomerByEmail(w, email).None?)
      && (r == Err(CartEmpty) <==> CustomerByEmail(w, email).Some? && CartController.CartItemsOf(w, CustomerByEmail(w, email).value) == map[])
      && (r.Ok? <==> CustomerByEmail(w, email).Some? && itemId in w.menu && itemId in CartController.CartItemsOf(w, CustomerByEmail(w, email).value))
  {
  }

  /** Adding one unit and taking one unit out again restores the cart, unless the wrap-around of the sum interferes. */
  lemma RemoveAfterAddOne(items: map<ItemId, int>, item: ItemId)
    requires item in items ==> items[item] >= 1 && IsInt32(items[item] + 1)
    ensures item in Merged(items, item, 1)
    ensures Decremented(Merged(items, item, 1), item) == items
  {
    var added := Merged(items, item, 1);
    if item in items {
      assert added[item] == items[item] + 1;
      assert Decremented(added, item) == added[item := items[item]];
    } else {
      assert Decremented(added, item) == added - {item};
    }
  }

  /** A successful removal takes one unit of that item and leaves every other line, every other cart and every other table alone. */
  lemma RemoveFromCartEffect(w: World, email: string, itemId: ItemId)
    requires RemoveGate(w, email, itemId).Ok?
    ensures var cid := RemoveGate(w, email, itemId).value;
      var (r, w') := RemoveFromCartSpec(w, email, itemId);
      && r.Ok?
      && w'.carts.Keys == w.carts.Keys
      && w'.carts[cid].items == Decremented(w.carts[cid].items, itemId)
      && w'.carts[cid].id == w.carts[cid].id && w'.carts[cid].customer == w.carts[cid].customer
      && (forall c :: c in w.carts && c != cid ==> w'.carts[c] == w.carts[c])
      && w' == w.(carts := w'.carts)
  {
  }

  /** Removing a whole line: the item is gone and nothing else changes; a second identical request is refused. */
  lemma RemoveAllFromCartEffect(w: World, email: string, itemId: ItemId)
    requires RemoveGate(w, email, itemId).Ok?
    ensures var cid := RemoveGate(w, email, itemId).value;
      var (r, w') := RemoveAllFromCartSpec(w, email, itemId);
      && r.Ok?
      && itemId !in w'.carts[cid].items
      && (forall i :: i in w.carts[cid].items && i != itemId ==> i in w'.carts[cid].items && w'.carts[cid].items[i] == w.carts[cid].items[i])
      && w' == w.(carts := w'.carts)
      && RemoveAllFromCartSpec(w', email, itemId).0.Err?
  {
    var cid := RemoveGate(w, email, itemId).value;
    var w' := RemoveAllFromCartSpec(w, email, itemId).1;
    assert w'.customers == w.customers;
    assert CustomerByEmail(w', email) == CustomerByEmail(w, email);
  }

  /** Taking a single-unit line out with removeFromCart is the same as removeAllFromCart. */
  lemma RemoveLastUnitIsRemoveAll(w: World, email: string, itemId: ItemId)
    requires RemoveGate(w, email, itemId).Ok?
    requires w.carts[RemoveGate(w, email, itemId).value].items[itemId] <= 1
    ensures RemoveFromCartSpec(w, email, itemId) == RemoveAllFromCartSpec(w, email, itemId)
  {
  }

  /** Both removals keep the database consistent: a subset of a one-restaurant cart is one-restaurant. */
  lemma RemoveConsistent(w: World, email: string, itemId: ItemId)
    requires Consistent(w)
    ensures Consistent(RemoveFromCartSpec(w, email, itemId).1)
    ensures Consistent(RemoveAllFromCartSpec(w, email, itemId).1)
  {
    if RemoveGate(w, email, itemId).Ok? {
      var cid := RemoveGate(w, email, itemId).value;
      var row := w.carts[cid];
      assert SingleRestaurant(w.menu, row.items);
      CartUpdateConsistent(w, cid, row.(items := Decremented(row.items, itemId)));
      CartUpdateConsistent(w, cid, row.(items := row.items - {itemId}));
    }
  }

  /** Lines 151-171: the common checks, returning the loaded cart entity. */
  method LoadForRemoval(db: Store, email: string, itemId: ItemId) returns (r: Result<CustomerId, OrderError>, cart: Cart?)
    requires db.Valid()
    ensures r == RemoveGate(db.View(), email, itemId)
    ensures r.Ok? ==> cart != null && fresh(cart) && cart.Row() == db.carts[r.value]
  {
    cart := null;
    var found := FindCustomer(db, email);
    if found.None? {
      return Err(CustomerNotFound), cart;
    }
    var cid := found.value;
    cart := db.LoadCart(cid);
    if cart == null || cart.items == map[] {
      return Err(CartEmpty), cart;
    }
    if itemId !in db.menu {
      return Err(MenuItemNotFound), cart;
    }
    if itemId !in cart.items {
      return Err(ItemNotInCart), cart;
    }
    r := Ok(cid);
  }

  /** OrderController.removeFromCart. */
  method RemoveFromCart(db: Store, email: string, itemId: ItemId) returns (r: Result<(), OrderError>)
    requires db.Valid()
    modifies db`carts
    ensures (r, db.View()) == RemoveFromCartSpec(old(db.View()), email, itemId)
    ensures db.Valid()
  {
    ghost var w := db.View();
    var g, cart := LoadForRemoval(db, email, itemId);
    if g.Err? {
      return Err(g.error);
    }
    RemoveConsistent(w, email, itemId);
    var currentQty := cart.items[itemId];
    if currentQty > 1 {
      cart.SetQuantity(itemId, currentQty - 1);
    } else {
      cart.RemoveLine(itemId);
    }
    db.SaveCart(g.value, cart);
    r := Ok(());
  }

  /** OrderController.removeAllFromCart. */
  method RemoveAllFromCart(db: Store, email: string, itemId: ItemId) returns (r: Result<(), OrderError>)
    requires db.Valid()
    modifies db`carts
    ensures (r, db.View()) == RemoveAllFromCartSpec(old(db.View()), email, itemId)
    ensures db.Valid()
  {
    ghost var w := db.View();
    var g, cart := LoadForRemoval(db, email, itemId);
    if g.Err? {
      return Err(g.error);
    }
    RemoveConsistent(w, email, itemId);
    cart.RemoveLine(itemId);
    db.SaveCart(g.value, cart);
    r := Ok(());
  }

  // ---------------------------------------------------------------------
  // updateOrderStatus
  // ---------------------------------------------------------------------

  /** The status written by lines 239-243: "ACCEPTED" in any case becomes IN_PROGRESS, any other string is stored as sent. */
  function StoredStatus(newStatus: string): (st: OrderStatus)
    ensures Canonical(st)
    ensures EqualsIgnoreCase(newStatus, "ACCEPTED") ==> st == InProgress
    ensures !EqualsIgnoreCase(newStatus, "ACCEPTED") ==> st.Name() == newStatus
  {
    if EqualsIgnoreCase(newStatus, "ACCEPTED") then InProgress else ParseStatus(newStatus)
  }

  /** OrderController.updateOrderStatus on a snapshot; `newStatus` is None when the body has no "status" key. */
  ghost function UpdateOrderStatusSpec(w: World, orderId: OrderId, newStatus: Option<string>): (res: (Result<OrderStatus, OrderError>, World))
    ensures res.0.Err? ==> res.1 == w
  {
    if newStatus.None? then (Err(StatusRequired), w)
    else if orderId !in w.orders then (Err(OrderError.OrderNotFound), w)
    else
      var st := StoredStatus(newStatus.value);
      (Ok(st), w.(orders := w.orders[orderId := w.orders[orderId].(status := st)]))
  }

  /**
   * There is no transition check: the update succeeds exactly when a status
   * was sent and the order exists, whatever the order's current status, and
   * the order then holds the stored status and nothing else of it changes.
   */
  lemma UpdateOrderStatusOk(w: World, orderId: OrderId, newStatus: Option<string>)
    ensures UpdateOrderStatusSpec(w, orderId, newStatus).0.Ok? <==> newStatus.Some? && orderId in w.orders
    ensures newStatus.Some? && orderId in w.orders ==>
      var w' := UpdateOrderStatusSpec(w, orderId, newStatus).1;
      && w'.orders[orderId].status.Name() == (if EqualsIgnoreCase(newStatus.value, "ACCEPTED") then "IN_PROGRESS" else newStatus.value)
      && w'.orders[orderId] == w.orders[orderId].(status := w'.orders[orderId].status)
      && w'.orders.Keys == w.orders.Keys
      && (forall o :: o in w.orders && o != orderId ==> w'.orders[o] == w.orders[o])
  {
  }

  /** The outcome does not depend on the status the order had: two databases differing only in that status end up equal. */
  lemma UpdateOrderStatusForgetsOld(w: World, orderId: OrderId, s: string, old1: OrderStatus, old2: OrderStatus)
    requires orderId in w.orders
    ensures var w1 := w.(orders := w.orders[orderId := w.orders[orderId].(status := old1)]);
      var w2 := w.(orders := w.orders[orderId := w.orders[orderId].(status := old2)]);
      UpdateOrderStatusSpec(w1, orderId, Some(s)) == UpdateOrderStatusSpec(w2, orderId, Some(s))
  {
    var w1 := w.(orders := w.orders[orderId := w.orders[orderId].(status := old1)]);
    var w2 := w.(orders := w.orders[orderId := w.orders[orderId].(status := old2)]);
    var st := StoredStatus(s);
    assert w1.orders[orderId := w1.orders[orderId].(status := st)] == w2.orders[orderId := w2.orders[orderId].(status := st)];
  }

  /** Sending the same status twice is the same as sending it once. */
  lemma UpdateOrderStatusIdempotent(w: World, orderId: OrderId, s: string)
    ensures var w1 := UpdateOrderStatusSpec(w, orderId, Some(s)).1;
      UpdateOrderStatusSpec(w1, orderId, Some(s)).1 == w1
  {
    if orderId in w.orders {
      var w1 := UpdateOrderStatusSpec(w, orderId, Some(s)).1;
      assert w1.orders[orderId := w1.orders[orderId].(status := StoredStatus(s))] == w1.orders;
    }
  }

  /** OrderController.updateOrderStatus. */
  method UpdateOrderStatus(db: Store, orderId: OrderId, newStatus: Option<string>) returns (r: Result<OrderStatus, OrderError>)
    requires db.Valid()
    modifies db`orders
    ensures (r, db.View()) == UpdateOrderStatusSpec(old(db.View()), orderId, newStatus)
    ensures db.Valid()
  {
    if newStatus.None? {
      return Err(StatusRequired);
    }
    if orderId !in db.orders {
      return Err(OrderError.OrderNotFound);
    }
    var order := db.orders[orderId];
    var st: OrderStatus;
    if EqualsIgnoreCase(newStatus.value, "ACCEPTED") {
      st := InProgress;
    } else {
      st := ParseStatus(newStatus.value);
    }
    SetStatusConsistent(db.View(), orderId, st);
    db.orders := db.orders[orderId := order.(status := st)];
    r := Ok(st);
  }

  // ---------------------------------------------------------------------
  // toggleRestaurantStatus
  // ---------------------------------------------------------------------

  /** OrderController.toggleRestaurantStatus on a snapshot: flips `isOpen` and answers with the new value. */
  ghost function ToggleRestaurantStatusSpec(w: World, rid: RestaurantId): (res: (Result<bool, OrderError>, World))
    ensures res.0.Err? ==> res.1 == w
  {
    if rid !in w.restaurants then (Err(RestaurantNotFound), w)
    else
      var rest := w.restaurants[rid];
      (Ok(!rest.isOpen), w.(restaurants := w.restaurants[rid := rest.(isOpen := !rest.isOpen)]))
  }

  /**
   * The answer is the negation of the old flag, only `isOpen` of that
   * restaurant changes, and toggling twice restores the database.
   */
  lemma ToggleTwiceRestores(w: World, rid: RestaurantId)
    requires rid in w.restaurants
    ensures var (r, w1) := ToggleRestaurantStatusSpec(w, rid);
      && r == Ok(!w.restaurants[rid].isOpen)
      && w1.restaurants[rid].isOpen == !w.restaurants[rid].isOpen
      && w1.restaurants[rid].(isOpen := w.restaurants[rid].isOpen) == w.restaurants[rid]
      && ToggleRestaurantStatusSpec(w1, rid).1 == w
  {
    var w1 := ToggleRestaurantStatusSpec(w, rid).1;
    assert w1.restaurants[rid := w1.restaurants[rid].(isOpen := !w1.restaurants[rid].isOpen)] == w.restaurants;
  }

  /** OrderController.toggleRestaurantStatus. */
  method ToggleRestaurantStatus(db: Store, rid: RestaurantId) returns (r: Result<bool, OrderError>)
    requires db.Valid()
    modifies db`restaurants
    ensures (r, db.View()) == ToggleRestaurantStatusSpec(old(db.View()), rid)
    ensures db.Valid()
  {
    if rid !in db.restaurants {
      return Err(RestaurantNotFound);
    }
    var rest := db.restaurants[rid];
    var updated := rest.(isOpen := !rest.isOpen);
    RestaurantUpdateConsistent(db.View(), rid, updated);
    db.restaurants := db.restaurants[rid := updated];
    r := Ok(updated.isOpen);
  }
}
