// service/RestaurantOwnerService.java: a restaurant owner editing or deleting
// one of its menu items, guarded by scans over every cart and every order, and
// opening or closing the restaurant.
module RestaurantOwnerService {
  import opened Domain
  import opened Carts
  import opened Persistence
  import opened Cascades
  import OrderController

  /** The exceptions the service throws. */
  datatype OwnerError =
    | MenuItemNotFound      // RuntimeException "Menu item not found with ID"
    | NullRestaurant        // the item belongs to no restaurant, and the null reference is dereferenced
    | NotOwner              // RuntimeException "You do not have permission ..."
    | InCart                // OperationBlockedException: the item is in a customer's cart
    | InActiveOrder         // OperationBlockedException: the item is part of an active order
    | RestaurantNotFound    // RuntimeException "Restaurant not found"

  /** The body of an update request (DTO/MenuItemDTO.java); prices in minor units. */
  datatype MenuItemDto = MenuItemDto(name: string, description: string, price: int, available: bool)

  /** The statuses an order still in progress has, compared after upper-casing. */
  const ActiveStatuses: set<string> := {"PENDING", "IN_PROGRESS", "PREPARING", "READY", "PICKED_UP"}

  // ---------------------------------------------------------------------
  // What the scans look for
  // ---------------------------------------------------------------------

  /** Some cart, of any customer, has a line for the item. */
  predicate InSomeCart(carts: map<CustomerId, CartRec>, item: ItemId)
  {
    exists c :: c in carts && item in carts[c].items
  }

  /** The order holds the item and is still in progress. */
  predicate HoldsWhileActive(o: Order, item: ItemId)
  {
    item in o.items && Upper(o.status.Name()) in ActiveStatuses
  }

  /** Some order still in progress holds the item. */
  predicate InSomeActiveOrder(orders: map<OrderId, Order>, item: ItemId)
  {
    exists o :: o in orders && HoldsWhileActive(orders[o], item)
  }

  /** The request changes what a customer was shown when ordering: name, price or description. */
  predicate CoreInfoChanged(item: MenuItem, dto: MenuItemDto)
  {
    item.name != dto.name || item.price != dto.price || item.description != dto.description
  }

  // ---------------------------------------------------------------------
  // The scan loops
  // ---------------------------------------------------------------------

  /** The `for (Cart cart : cartRepository.findAll())` scan: does any cart hold the item? */
  method ScanCarts(carts: map<CustomerId, CartRec>, item: ItemId) returns (found: bool)
    ensures found <==> InSomeCart(carts, item)
  {
    var left := carts.Keys;
    while left != {}
      invariant left <= carts.Keys
      invariant forall c :: c in carts && c !in left ==> item !in carts[c].items
      decreases |left|
    {
      ghost var some := SomeElement(left);
      var c :| c in left;
      if item in carts[c].items {
        return true;
      }
      left := left - {c};
    }
    return false;
  }

  /** The `for (Order order : orderRepository.findAll())` scan: does an order in progress hold the item? */
  method ScanOrders(orders: map<OrderId, Order>, item: ItemId) returns (found: bool)
    ensures found <==> InSomeActiveOrder(orders, item)
  {
    var left := orders.Keys;
    while left != {}
      invariant left <= orders.Keys
      invariant forall o :: o in orders && o !in left ==> !HoldsWhileActive(orders[o], item)
      decreases |left|
    {
      ghost var some := SomeElement(left);
      var o :| o in left;
      if item in orders[o].items && Upper(orders[o].status.Name()) in ActiveStatuses {
        return true;
      }
      left := left - {o};
    }
    return false;
  }

  /** The loop of deleteMenuItem that takes the item out of every order holding it, past ones included. */
  method RemoveFromOrders(orders: map<OrderId, Order>, item: ItemId) returns (r: map<OrderId, Order>)
    ensures r == WithoutItems(orders, {item})
  {
    var holding := set o | o in orders && item in orders[o].items;
    r := UpdateEach(orders, holding, (o: Order) => o.(items := o.items - {item}));
    forall o | o in orders && o !in holding
      ensures orders[o].items - {item} == orders[o].items
    {
    }
  }

  // ---------------------------------------------------------------------
  // The guards update and delete share
  // ---------------------------------------------------------------------

  /**
   * The item, when it exists, belongs to restaurant `rid` and is in no cart;
   * otherwise the first check that fails, in the order the service makes them.
   */
  ghost function OwnedItem(w: World, rid: RestaurantId, itemId: ItemId): (r: Result<MenuItem, OwnerError>)
  {
    if itemId !in w.menu then Err(MenuItemNotFound)
    else if w.menu[itemId].restaurant.None? then Err(NullRestaurant)
    else if w.menu[itemId].restaurant.value != rid then Err(NotOwner)
    else if InSomeCart(w.carts, itemId) then Err(InCart)
    else Ok(w.menu[itemId])
  }

  /** Both directions of the guard: it passes exactly for an existing item of `rid` that no cart holds. */
  lemma OwnedItemExact(w: World, rid: RestaurantId, itemId: ItemId)
    ensures OwnedItem(w, rid, itemId).Ok? <==>
      itemId in w.menu && w.menu[itemId].restaurant == Some(rid) && forall c :: c in w.carts ==> itemId !in w.carts[c].items
    ensures OwnedItem(w, rid, itemId).Ok? ==> OwnedItem(w, rid, itemId).value == w.menu[itemId]
    ensures OwnedItem(w, rid, itemId) == Err(NotOwner) <==>
      itemId in w.menu && w.menu[itemId].restaurant.Some? && w.menu[itemId].restaurant.value != rid
  {
  }

  /** The guard, reading the database: the lookup, the ownership check and the cart scan. */
  method CheckOwnedItem(db: Store, rid: RestaurantId, itemId: ItemId) returns (r: Result<MenuItem, OwnerError>)
    ensures r == OwnedItem(db.View(), rid, itemId)
  {
    if itemId !in db.menu {
      return Err(MenuItemNotFound);
    }
    var item := db.menu[itemId];
    if item.restaurant.None? {
      return Err(NullRestaurant);
    }
    if item.restaurant.value != rid {
      return Err(NotOwner);
    }
    var inCart := ScanCarts(db.carts, itemId);
    if inCart {
      return Err(InCart);
    }
    r := Ok(item);
  }

  // ---------------------------------------------------------------------
  // updateMenuItem
  // ---------------------------------------------------------------------

  /** The item with the four columns of the request written over it. */
  function Edited(item: MenuItem, dto: MenuItemDto): (e: MenuItem)
    ensures e.id == item.id && e.restaurant == item.restaurant
    ensures e.name == dto.name && e.description == dto.description && e.price == dto.price && e.available == dto.available
  {
    item.(name := dto.name, description := dto.description, price := dto.price, available := dto.available)
  }

  ghost function UpdateMenuItemSpec(w: World, rid: RestaurantId, itemId: ItemId, dto: MenuItemDto): (res: (Result<MenuItem, OwnerError>, World))
  {
    match OwnedItem(w, rid, itemId)
    case Err(e) => (Err(e), w)
    case Ok(item) =>
      if CoreInfoChanged(item, dto) && InSomeActiveOrder(w.orders, itemId) then (Err(InActiveOrder), w)
      else (Ok(Edited(item, dto)), w.(menu := w.menu[itemId := Edited(item, dto)]))
  }

  /**
   * An update succeeds exactly when the guard passes and, if name, price or
   * description change, no order in progress holds the item; it then writes
   * exactly the four columns of that one row. A refused update changes nothing.
   */
  lemma UpdateMenuItemOutcome(w: World, rid: RestaurantId, itemId: ItemId, dto: MenuItemDto)
    ensures var (r, w') := UpdateMenuItemSpec(w, rid, itemId, dto);
      && (r.Ok? <==> OwnedItem(w, rid, itemId).Ok? && !(CoreInfoChanged(w.menu[itemId], dto) && InSomeActiveOrder(w.orders, itemId)))
      && (r.Err? ==> w' == w)
      && (r.Ok? ==>
            && w'.menu.Keys == w.menu.Keys
            && r.value == w'.menu[itemId]
            && (forall i :: i in w.menu && i != itemId ==> w'.menu[i] == w.menu[i])
            && r.value.(name := w.menu[itemId].name, description := w.menu[itemId].description,
                        price := w.menu[itemId].price, available := w.menu[itemId].available) == w.menu[itemId]
            && w' == w.(menu := w'.menu))
  {
    var (r, w') := UpdateMenuItemSpec(w, rid, itemId, dto);
    if r.Ok? {
      assert OwnedItem(w, rid, itemId).Ok?;
      assert w'.menu == w.menu[itemId := Edited(w.menu[itemId], dto)];
    }
  }

  /**
   * A change of availability alone is never blocked by an order: orders in
   * progress only matter when name, price or description change.
   */
  lemma AvailabilityOnlyUpdate(w: World, rid: RestaurantId, itemId: ItemId, available: bool)
    requires OwnedItem(w, rid, itemId).Ok?
    ensures var item := w.menu[itemId];
      UpdateMenuItemSpec(w, rid, itemId, MenuItemDto(item.name, item.description, item.price, available)).0
        == Ok(item.(available := available))
  {
    OwnedItemExact(w, rid, itemId);
  }

  /** Sending the same update twice: the second one succeeds and changes nothing. */
  lemma UpdateMenuItemIdempotent(w: World, rid: RestaurantId, itemId: ItemId, dto: MenuItemDto)
    requires UpdateMenuItemSpec(w, rid, itemId, dto).0.Ok?
    ensures var (r, w1) := UpdateMenuItemSpec(w, rid, itemId, dto);
      UpdateMenuItemSpec(w1, rid, itemId, dto) == (r, w1)
  {
    var (r, w1) := UpdateMenuItemSpec(w, rid, itemId, dto);
    OwnedItemExact(w, rid, itemId);
    assert w1.carts == w.carts;
    OwnedItemExact(w1, rid, itemId);
    assert !CoreInfoChanged(w1.menu[itemId], dto);
    assert w1.menu[itemId := Edited(w1.menu[itemId], dto)] == w1.menu;
  }

  /** Rewriting a menu item in place, restaurant unchanged, keeps the database consistent. */
  lemma MenuItemUpdateConsistent(w: World, itemId: ItemId, m: MenuItem)
    requires Consistent(w) && itemId in w.menu
    requires m.restaurant == w.menu[itemId].restaurant
    ensures Consistent(w.(menu := w.menu[itemId := m]))
  {
    var w' := w.(menu := w.menu[itemId := m]);
    assert w'.menu.Keys == w.menu.Keys;
    assert forall i :: ItemRestaurant(w'.menu, i) == ItemRestaurant(w.menu, i);
    assert MenuRefs(w'.menu, w'.restaurants);
    assert CartRefs(w'.carts, w'.menu, w'.customers);
    assert OrderRefs(w'.orders, w'.menu, w'.customers, w'.restaurants, w'.couriers);
    forall c | c in w'.carts
      ensures SingleRestaurant(w'.menu, w'.carts[c].items)
    {
      assert SingleRestaurant(w.menu, w.carts[c].items);
    }
  }

  lemma UpdateMenuItemConsistent(w: World, rid: RestaurantId, itemId: ItemId, dto: MenuItemDto)
    requires Consistent(w)
    ensures Consistent(UpdateMenuItemSpec(w, rid, itemId, dto).1)
  {
    if UpdateMenuItemSpec(w, rid, itemId, dto).0.Ok? {
      MenuItemUpdateConsistent(w, itemId, Edited(w.menu[itemId], dto));
    }
  }

  /** RestaurantOwnerService.updateMenuItem. */
  method UpdateMenuItem(db: Store, rid: RestaurantId, itemId: ItemId, dto: MenuItemDto) returns (r: Result<MenuItem, OwnerError>)
    requires db.Valid()
    modifies db`menu
    ensures (r, db.View()) == UpdateMenuItemSpec(old(db.View()), rid, itemId, dto)
    ensures db.Valid()
  {
    UpdateMenuItemConsistent(db.View(), rid, itemId, dto);
    r := CheckOwnedItem(db, rid, itemId);
    if r.Err? {
      return;
    }
    var item := r.value;
    var coreInfoChanged := item.name != dto.name || item.price != dto.price || item.description != dto.description;
    if coreInfoChanged {
      var active := ScanOrders(db.orders, itemId);
      if active {
        return Err(InActiveOrder);
      }
    }
    var updated := item.(name := dto.name, description := dto.description, price := dto.price, available := dto.available);
    db.menu := db.menu[itemId := updated];
    r := Ok(updated);
  }

  // ---------------------------------------------------------------------
  // deleteMenuItem
  // ---------------------------------------------------------------------

  ghost function DeleteMenuItemSpec(w: World, rid: RestaurantId, itemId: ItemId): (res: (Result<(), OwnerError>, World))
  {
    match OwnedItem(w, rid, itemId)
    case Err(e) => (Err(e), w)
    case Ok(_) =>
      if InSomeActiveOrder(w.orders, itemId) then (Err(InActiveOrder), w)
      else (Ok(()), w.(orders := WithoutItems(w.orders, {itemId}), menu := w.menu - {itemId}))
  }

  /**
   * A delete succeeds exactly when the guard passes and no order in progress
   * holds the item. It then removes the item from the menu and from every
   * order, delivered and cancelled ones included, and nothing else: every
   * order keeps its other lines, every other item its row. A refused delete
   * changes nothing.
   */
  lemma DeleteMenuItemOutcome(w: World, rid: RestaurantId, itemId: ItemId)
    ensures var (r, w') := DeleteMenuItemSpec(w, rid, itemId);
      && (r.Ok? <==> OwnedItem(w, rid, itemId).Ok? && !InSomeActiveOrder(w.orders, itemId))
      && (r.Err? ==> w' == w)
      && (r.Ok? ==>
            && itemId !in w'.menu
            && (forall i :: i in w.menu && i != itemId ==> i in w'.menu && w'.menu[i] == w.menu[i])
            && w'.orders.Keys == w.orders.Keys
            && (forall o :: o in w.orders ==>
                  && itemId !in w'.orders[o].items
                  && (forall i :: i in w.orders[o].items && i != itemId ==> i in w'.orders[o].items && w'.orders[o].items[i] == w.orders[o].items[i])
                  && w'.orders[o].(items := w.orders[o].items) == w.orders[o])
            && w' == w.(orders := w'.orders, menu := w'.menu))
  {
  }

  /** Deleting an item twice: the second delete finds nothing. */
  lemma DeleteMenuItemTwice(w: World, rid: RestaurantId, itemId: ItemId)
    requires DeleteMenuItemSpec(w, rid, itemId).0.Ok?
    ensures DeleteMenuItemSpec(DeleteMenuItemSpec(w, rid, itemId).1, rid, itemId) == (Err(MenuItemNotFound), DeleteMenuItemSpec(w, rid, itemId).1)
  {
    var w1 := DeleteMenuItemSpec(w, rid, itemId).1;
    assert itemId !in w1.menu;
  }

  /** A delete that the guards let through never leaves a dangling reference: no cart and no order names the item any more. */
  lemma DeleteMenuItemConsistent(w: World, rid: RestaurantId, itemId: ItemId)
    requires Consistent(w)
    ensures Consistent(DeleteMenuItemSpec(w, rid, itemId).1)
  {
    var (r, w') := DeleteMenuItemSpec(w, rid, itemId);
    if r.Ok? {
      OwnedItemExact(w, rid, itemId);
      assert forall i :: i != itemId ==> ItemRestaurant(w'.menu, i) == ItemRestaurant(w.menu, i);
      assert MenuRefs(w'.menu, w'.restaurants);
      forall c | c in w'.carts
        ensures w'.carts[c].items.Keys <= w'.menu.Keys
        ensures SingleRestaurant(w'.menu, w'.carts[c].items)
      {
        assert itemId !in w.carts[c].items;
        assert SingleRestaurant(w.menu, w.carts[c].items);
      }
      assert CartRefs(w'.carts, w'.menu, w'.customers);
      forall o | o in w'.orders
        ensures OrderRefsOk(w'.orders[o], w'.menu, w'.customers, w'.restaurants, w'.couriers)
      {
        assert OrderRefsOk(w.orders[o], w.menu, w.customers, w.restaurants, w.couriers);
      }
      assert OrderRefs(w'.orders, w'.menu, w'.customers, w'.restaurants, w'.couriers);
      assert PaymentRefs(w'.payments, w'.orders);
      assert StatusesCanonical(w'.orders);
    }
  }

  /** RestaurantOwnerService.deleteMenuItem. */
  method DeleteMenuItem(db: Store, rid: RestaurantId, itemId: ItemId) returns (r: Result<(), OwnerError>)
    requires db.Valid()
    modifies db`menu, db`orders
    ensures (r, db.View()) == DeleteMenuItemSpec(old(db.View()), rid, itemId)
    ensures db.Valid()
  {
    DeleteMenuItemConsistent(db.View(), rid, itemId);
    var owned := CheckOwnedItem(db, rid, itemId);
    if owned.Err? {
      return Err(owned.error);
    }
    var active := ScanOrders(db.orders, itemId);
    if active {
      return Err(InActiveOrder);
    }
    var orders := RemoveFromOrders(db.orders, itemId);
    db.orders := orders;
    db.menu := db.menu - {itemId};
    r := Ok(());
  }

  // ---------------------------------------------------------------------
  // toggleRestaurantStatus
  // ---------------------------------------------------------------------

  ghost function ToggleRestaurantStatusSpec(w: World, rid: RestaurantId): (res: (Result<bool, OwnerError>, World))
  {
    if rid !in w.restaurants then (Err(RestaurantNotFound), w)
    else
      var rest := w.restaurants[rid];
      (Ok(!rest.isOpen), w.(restaurants := w.restaurants[rid := rest.(isOpen := !rest.isOpen)]))
  }

  /**
   * The service's toggle and the controller's toggle (OrderController) do the
   * same thing: they fail on the same restaurants, answer the same new flag
   * and leave the same database; toggling twice restores the database.
   */
  lemma ToggleAgreesAndRestores(w: World, rid: RestaurantId)
    ensures var (r, w1) := ToggleRestaurantStatusSpec(w, rid);
      var (r', w1') := OrderController.ToggleRestaurantStatusSpec(w, rid);
      && w1 == w1'
      && (r.Ok? <==> r'.Ok?)
      && (r.Ok? ==> r.value == r'.value)
      && (r == Err(RestaurantNotFound) <==> rid !in w.restaurants)
      && ToggleRestaurantStatusSpec(w1, rid).1 == w
  {
    if rid in w.restaurants {
      OrderController.ToggleTwiceRestores(w, rid);
    }
  }

  /** RestaurantOwnerService.toggleRestaurantStatus. */
  method ToggleRestaurantStatus(db: Store, rid: RestaurantId) returns (r: Result<bool, OwnerError>)
    requires db.Valid()
    modifies db`restaurants
    ensures (r, db.View()) == ToggleRestaurantStatusSpec(old(db.View()), rid)
    ensures db.Valid()
  {
    if rid !in db.restaurants {
      return Err(RestaurantNotFound);
    }
    var rest := db.restaurants[rid];
    var newStatus := !rest.isOpen;
    RestaurantUpdateConsistent(db.View(), rid, rest.(isOpen := newStatus));
    db.restaurants := db.restaurants[rid := rest.(isOpen := newStatus)];
    r := Ok(newStatus);
  }
}
