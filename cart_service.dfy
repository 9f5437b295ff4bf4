// service/CartService.java: the service-layer addToCart. It saves an empty
// cart before looking at the item, checks only approval and account status
// of the item's restaurant, then applies the same one-restaurant rule and
// additive merge as the controller.
module CartService {
  import opened Domain
  import opened Carts
  import opened Persistence
  import opened CartController

  /** The checks of lines 40-52: the item exists, its restaurant is approved and not blocked. */
  function ServiceGate(w: World, itemId: ItemId): (r: Result<RestaurantId, CartError>)
    ensures r == Err(MenuItemNotFound) <==> itemId !in w.menu
    ensures r.Ok? <==>
      && itemId in w.menu
      && RestaurantOf(w, w.menu[itemId]).Some?
      && RestaurantOf(w, w.menu[itemId]).value.approved
      && !Blocked(RestaurantOf(w, w.menu[itemId]).value.user.accountStatus)
    ensures r.Ok? ==> w.menu[itemId].restaurant == Some(r.value)
  {
    if itemId !in w.menu then Err(MenuItemNotFound)
    else
      var item := w.menu[itemId];
      match RestaurantOf(w, item)
      case None => Err(RestaurantNotApproved)
      case Some(rest) =>
        if !rest.approved then Err(RestaurantNotApproved)
        else if Blocked(rest.user.accountStatus) then Err(RestaurantUnavailable)
        else Ok(item.restaurant.value)
  }

  /**
   * Lines 29-37: with no cart stored, an empty one with id "cart-" + a fresh
   * UUID is saved at once; its customer is null when no customer has that id.
   */
  function EnsureCart(w: World, cid: CustomerId, uuid: string): World
  {
    if cid in w.carts then w
    else
      var owner := if cid in w.customers then Some(cid) else None;
      w.(carts := w.carts[cid := CartRec("cart-" + uuid, owner, map[])])
  }

  /** CartService.addToCart on a snapshot, given the fresh UUID and which line the iterator returns first. */
  function ServiceAddSpec(w: World, cid: CustomerId, itemId: ItemId, quantity: int, uuid: string, first: ItemId): (res: (Result<(), CartError>, World))
    ensures res.0.Err? ==> res.1 == EnsureCart(w, cid, uuid)
  {
    var w1 := EnsureCart(w, cid, uuid);
    match ServiceGate(w, itemId)
    case Err(e) => (Err(e), w1)
    case Ok(rid) => AddLineSpec(w1, cid, rid, itemId, quantity, first)
  }

  /** `first` is a line of the stored cart whenever that cart has lines. */
  predicate FirstLine(w: World, cid: CustomerId, first: ItemId)
  {
    CartItemsOf(w, cid) != map[] ==> first in CartItemsOf(w, cid)
  }

  /**
   * The cart is created before any check: whatever the outcome, the customer
   * then has a cart, and a refused call leaves a fresh cart empty.
   */
  lemma ServiceSavesCartFirst(w: World, cid: CustomerId, itemId: ItemId, quantity: int, uuid: string, first: ItemId)
    requires cid !in w.carts
    ensures var res := ServiceAddSpec(w, cid, itemId, quantity, uuid, first);
      && cid in res.1.carts
      && res.1.carts[cid].id == "cart-" + uuid
      && (res.0.Err? ==> res.1.carts[cid].items == map[] && res.1 == w.(carts := res.1.carts))
  {
  }

  /** Everything the controller's gate lets through, the service's gate lets through to the same restaurant. */
  lemma ServiceGateAdmitsControllerGate(w: World, itemId: ItemId)
    requires ItemGate(w, itemId).Ok?
    ensures ServiceGate(w, itemId) == ItemGate(w, itemId)
  {
  }

  /**
   * The service checks neither availability nor opening: an unavailable item
   * of a closed, approved, active restaurant is refused by the controller and
   * accepted by the service.
   */
  lemma ServiceSkipsAvailabilityAndOpening(w: World, itemId: ItemId)
    requires itemId in w.menu && !w.menu[itemId].available
    requires RestaurantOf(w, w.menu[itemId]).Some?
    requires RestaurantOf(w, w.menu[itemId]).value.approved
    requires !Blocked(RestaurantOf(w, w.menu[itemId]).value.user.accountStatus)
    ensures ItemGate(w, itemId) == Err(ItemUnavailable)
    ensures ServiceGate(w, itemId).Ok?
  {
  }

  /** Single-restaurant carts stay single-restaurant through the service too. */
  lemma ServiceKeepsSingleRestaurant(w: World, cid: CustomerId, itemId: ItemId, quantity: int, uuid: string, first: ItemId)
    requires CartsSingleRestaurant(w.carts, w.menu)
    requires FirstLine(w, cid, first)
    ensures CartsSingleRestaurant(ServiceAddSpec(w, cid, itemId, quantity, uuid, first).1.carts, w.menu)
  {
    var w1 := EnsureCart(w, cid, uuid);
    EnsureCartSingleRestaurant(w, cid, uuid);
    if ServiceGate(w, itemId).Ok? {
      AddLineSingleRestaurant(w1, cid, ServiceGate(w, itemId).value, itemId, quantity, first);
    }
  }

  lemma EnsureCartSingleRestaurant(w: World, cid: CustomerId, uuid: string)
    requires CartsSingleRestaurant(w.carts, w.menu)
    ensures CartsSingleRestaurant(EnsureCart(w, cid, uuid).carts, w.menu)
    ensures EnsureCart(w, cid, uuid).menu == w.menu
    ensures CartItemsOf(EnsureCart(w, cid, uuid), cid) == CartItemsOf(w, cid)
  {
    var w1 := EnsureCart(w, cid, uuid);
    forall c | c in w1.carts ensures SingleRestaurant(w.menu, w1.carts[c].items) {
      if c !in w.carts {
        assert w1.carts[c].items == map[];
      }
    }
  }

  /** As in the controller, the line the iterator returns first does not change the outcome. */
  lemma ServiceFirstIrrelevant(w: World, cid: CustomerId, itemId: ItemId, quantity: int, uuid: string, f1: ItemId, f2: ItemId)
    requires CartsSingleRestaurant(w.carts, w.menu)
    requires FirstLine(w, cid, f1) && FirstLine(w, cid, f2)
    ensures ServiceAddSpec(w, cid, itemId, quantity, uuid, f1) == ServiceAddSpec(w, cid, itemId, quantity, uuid, f2)
  {
    var items := CartItemsOf(w, cid);
    if items != map[] {
      assert SingleRestaurant(w.menu, items);
      assert ItemRestaurant(w.menu, f1) == ItemRestaurant(w.menu, f2);
    }
  }

  /** The service keeps the database consistent. */
  lemma ServiceConsistent(w: World, cid: CustomerId, itemId: ItemId, quantity: int, uuid: string, first: ItemId)
    requires Consistent(w)
    requires FirstLine(w, cid, first)
    ensures Consistent(EnsureCart(w, cid, uuid))
    ensures Consistent(ServiceAddSpec(w, cid, itemId, quantity, uuid, first).1)
  {
    var w1 := EnsureCart(w, cid, uuid);
    if cid !in w.carts {
      CartUpdateConsistent(w, cid, w1.carts[cid]);
    }
    if ServiceGate(w, itemId).Ok? {
      AddLineConsistent(w1, cid, ServiceGate(w, itemId).value, itemId, quantity, first);
    }
  }

  /** Lines 29-37 of CartService.addToCart: save an empty cart when none is stored. */
  method SaveCartIfMissing(db: Store, cid: CustomerId, uuid: string)
    requires db.Valid()
    modifies db`carts
    ensures db.View() == EnsureCart(old(db.View()), cid, uuid)
    ensures db.Valid()
  {
    ghost var w := db.View();
    var cart := db.LoadCart(cid);
    if cart == null {
      var owner := if cid in db.customers then Some(cid) else None;
      cart := new Cart("cart-" + uuid, owner);
      CartUpdateConsistent(w, cid, cart.Row());
      db.SaveCart(cid, cart);
    }
  }

  /**
   * CartService.addToCart; the UUID of a new cart is a parameter. After the
   * service's own checks, the one-restaurant rule and the merge are the
   * controller's steps 8-9.
   */
  method AddToCart(db: Store, cid: CustomerId, itemId: ItemId, quantity: int, uuid: string) returns (r: Result<(), CartError>, ghost first: ItemId)
    requires db.Valid()
    modifies db`carts
    ensures (r, db.View()) == ServiceAddSpec(old(db.View()), cid, itemId, quantity, uuid, first)
    ensures FirstLine(old(db.View()), cid, first)
    ensures db.Valid()
  {
    ghost var w := db.View();
    first := 0;
    if cid in db.carts && db.carts[cid].items != map[] {
      first := SomeKey(db.carts[cid].items);
    }
    SaveCartIfMissing(db, cid, uuid);
    if itemId !in db.menu {
      return Err(MenuItemNotFound), first;
    }
    var item := db.menu[itemId];
    if item.restaurant.None? || !db.restaurants[item.restaurant.value].approved {
      return Err(RestaurantNotApproved), first;
    }
    var rest := db.restaurants[item.restaurant.value];
    if rest.user.accountStatus == BANNED || rest.user.accountStatus == SUSPENDED {
      return Err(RestaurantUnavailable), first;
    }
    assert CartItemsOf(db.View(), cid) == CartItemsOf(w, cid);
    r, first := AddLine(db, cid, item.restaurant.value, itemId, quantity);
  }
}
