// controller/CartController.java: adding a menu item to the caller's cart
// (a chain of rejections, lazy cart creation, the one-restaurant rule and an
// additive merge) and showing the cart (which empties a cart whose restaurant
// has been banned or suspended).
module CartController {
  import opened Domain
  import opened Carts
  import opened Persistence

  /** Why adding to or showing a cart is refused. */
  datatype CartError =
    | CustomerNotFound
    | MenuItemNotFound
    | ItemUnavailable
    | RestaurantNotApproved
    | RestaurantUnavailable
    | RestaurantClosed
    | DifferentRestaurant
    | NullReference
  {
    /** The HTTP status the controller answers with. */
    function Code(): int
    {
      match this
      case RestaurantNotApproved => 403
      case RestaurantUnavailable => 403
      case NullReference => 500
      case _ => 400
    }
  }

  /** The restaurant row an item points to; a missing row reads as null. */
  function RestaurantOf(w: World, item: MenuItem): Option<Restaurant>
  {
    if item.restaurant.Some? && item.restaurant.value in w.restaurants
    then Some(w.restaurants[item.restaurant.value]) else None
  }

  /** Steps 2-6 of addToCart: the checks on the item and its restaurant. */
  function ItemGate(w: World, itemId: ItemId): (r: Result<RestaurantId, CartError>)
    ensures r == Err(MenuItemNotFound) <==> itemId !in w.menu
    ensures r.Ok? <==>
      && itemId in w.menu && w.menu[itemId].available
      && RestaurantOf(w, w.menu[itemId]).Some?
      && RestaurantOf(w, w.menu[itemId]).value.approved
      && !Blocked(RestaurantOf(w, w.menu[itemId]).value.user.accountStatus)
      && RestaurantOf(w, w.menu[itemId]).value.isOpen
    ensures r.Ok? ==> w.menu[itemId].restaurant == Some(r.value)
  {
    if itemId !in w.menu then Err(MenuItemNotFound)
    else
      var item := w.menu[itemId];
      if !item.available then Err(ItemUnavailable)
      else match RestaurantOf(w, item)
        case None => Err(RestaurantNotApproved)
        case Some(rest) =>
          if !rest.approved then Err(RestaurantNotApproved)
          else if Blocked(rest.user.accountStatus) then Err(RestaurantUnavailable)
          else if !rest.isOpen then Err(RestaurantClosed)
          else Ok(item.restaurant.value)
  }

  /**
   * Step 8: a non-empty cart only takes items of the restaurant of the line
   * `first` that the map's iterator happens to return first.
   */
  function SameRestaurant(menu: map<ItemId, MenuItem>, items: map<ItemId, int>, first: ItemId, rid: RestaurantId): Result<(), CartError>
  {
    if items == map[] then Ok(())
    else match ItemRestaurant(menu, first)
      case None => Err(NullReference)
      case Some(existing) => if existing == rid then Ok(()) else Err(DifferentRestaurant)
  }

  /** Step 7: the stored cart, or a new one with id "cart-" + customerId. */
  function CartOrNew(w: World, cid: CustomerId): CartRec
  {
    if cid in w.carts then w.carts[cid] else CartRec("cart-" + cid, Some(cid), map[])
  }

  /** addToCart on a database snapshot, given which line the iterator returns first. */
  ghost function AddToCartSpec(w: World, email: string, itemId: ItemId, quantity: int, first: ItemId): (res: (Result<(), CartError>, World))
    ensures res.0.Err? ==> res.1 == w
  {
    match CustomerByEmail(w, email)
    case None => (Err(CustomerNotFound), w)
    case Some(cid) =>
      match ItemGate(w, itemId)
      case Err(e) => (Err(e), w)
      case Ok(rid) => AddLineSpec(w, cid, rid, itemId, quantity, first)
  }

  /** Steps 7-9: find or create the cart, apply the one-restaurant rule, merge. */
  function AddLineSpec(w: World, cid: CustomerId, rid: RestaurantId, itemId: ItemId, quantity: int, first: ItemId): (res: (Result<(), CartError>, World))
    ensures res.0.Err? ==> res.1 == w
  {
    var cart := CartOrNew(w, cid);
    match SameRestaurant(w.menu, cart.items, first, rid)
    case Err(e) => (Err(e), w)
    case Ok(_) => (Ok(()), w.(carts := w.carts[cid := cart.(items := Merged(cart.items, itemId, quantity))]))
  }

  /** The caller's current cart lines (empty when no cart is stored). */
  function CartItemsOf(w: World, cid: CustomerId): map<ItemId, int>
  {
    if cid in w.carts then w.carts[cid].items else map[]
  }

  /** `first` is a line the iterator can return: any line when the cart is non-empty. */
  ghost predicate FirstOk(w: World, email: string, first: ItemId)
  {
    CustomerByEmail(w, email).Some? && CartItemsOf(w, CustomerByEmail(w, email).value) != map[] ==>
      first in CartItemsOf(w, CustomerByEmail(w, email).value)
  }

  /** Merging an item of the cart's own restaurant keeps the cart single-restaurant. */
  lemma {:induction false} MergeKeepsSingleRestaurant(menu: map<ItemId, MenuItem>, items: map<ItemId, int>, item: ItemId, quantity: int, rid: RestaurantId)
    requires SingleRestaurant(menu, items)
    requires ItemRestaurant(menu, item) == Some(rid)
    requires forall i :: i in items ==> ItemRestaurant(menu, i) == Some(rid)
    ensures SingleRestaurant(menu, Merged(items, item, quantity))
    ensures forall i :: i in Merged(items, item, quantity) ==> ItemRestaurant(menu, i) == Some(rid)
  {
    MergedKeys(items, item, quantity);
  }

  /**
   * Preservation: if every cart's lines share one restaurant before
   * addToCart, they still do after it, and a non-empty cart keeps its
   * restaurant.
   */
  lemma AddToCartKeepsSingleRestaurant(w: World, email: string, itemId: ItemId, quantity: int, first: ItemId)
    requires CartsSingleRestaurant(w.carts, w.menu)
    requires FirstOk(w, email, first)
    ensures CartsSingleRestaurant(AddToCartSpec(w, email, itemId, quantity, first).1.carts, w.menu)
  {
    var res := AddToCartSpec(w, email, itemId, quantity, first);
    if res.0.Ok? {
      var cid := CustomerByEmail(w, email).value;
      var rid := ItemGate(w, itemId).value;
      var cart := CartOrNew(w, cid);
      assert SingleRestaurant(w.menu, cart.items);
      if cart.items != map[] {
        assert first in cart.items;
        forall i | i in cart.items ensures ItemRestaurant(w.menu, i) == Some(rid) {
          assert ItemRestaurant(w.menu, i) == ItemRestaurant(w.menu, first);
        }
      }
      MergeKeepsSingleRestaurant(w.menu, cart.items, itemId, quantity, rid);
    }
  }

  /**
   * The HashMap's iteration order does not matter: on single-restaurant
   * carts, any two choices of the first line give the same outcome.
   */
  lemma AddToCartFirstIrrelevant(w: World, email: string, itemId: ItemId, quantity: int, f1: ItemId, f2: ItemId)
    requires CartsSingleRestaurant(w.carts, w.menu)
    requires FirstOk(w, email, f1) && FirstOk(w, email, f2)
    ensures AddToCartSpec(w, email, itemId, quantity, f1) == AddToCartSpec(w, email, itemId, quantity, f2)
  {
    if CustomerByEmail(w, email).Some? {
      var cid := CustomerByEmail(w, email).value;
      var items := CartOrNew(w, cid).items;
      if items != map[] {
        assert cid in w.carts;
        assert SingleRestaurant(w.menu, items);
        assert ItemRestaurant(w.menu, f1) == ItemRestaurant(w.menu, f2);
      }
    }
  }

  /**
   * An accepted add merges the quantity into the caller's cart (created as
   * "cart-" + customerId when none was stored) and changes nothing else.
   */
  lemma AddToCartOk(w: World, email: string, itemId: ItemId, quantity: int, first: ItemId)
    requires AddToCartSpec(w, email, itemId, quantity, first).0.Ok?
    ensures CustomerByEmail(w, email).Some?
    ensures var cid := CustomerByEmail(w, email).value;
      var w' := AddToCartSpec(w, email, itemId, quantity, first).1;
      && w'.carts.Keys == w.carts.Keys + {cid}
      && w'.carts[cid].items == Merged(CartItemsOf(w, cid), itemId, quantity)
      && w'.carts[cid].id == (if cid in w.carts then w.carts[cid].id else "cart-" + cid)
      && (forall c :: c in w.carts && c != cid ==> w'.carts[c] == w.carts[c])
      && w' == w.(carts := w'.carts)
  {
  }

  /**
   * A cart whose lines come from restaurant R refuses an item of another
   * restaurant, and nothing changes.
   */
  lemma AddToCartRejectsOtherRestaurant(w: World, email: string, itemId: ItemId, quantity: int, first: ItemId, r: RestaurantId)
    requires FirstOk(w, email, first)
    requires CustomerByEmail(w, email).Some?
    requires CartItemsOf(w, CustomerByEmail(w, email).value) != map[]
    requires forall i :: i in CartItemsOf(w, CustomerByEmail(w, email).value) ==> ItemRestaurant(w.menu, i) == Some(r)
    requires ItemGate(w, itemId).Ok? && ItemGate(w, itemId).value != r
    ensures AddToCartSpec(w, email, itemId, quantity, first) == (Err(DifferentRestaurant), w)
  {
    var cid := CustomerByEmail(w, email).value;
    assert first in CartItemsOf(w, cid);
  }

  /** Steps 7-9 keep the database consistent. */
  lemma AddLineConsistent(w: World, cid: CustomerId, rid: RestaurantId, itemId: ItemId, quantity: int, first: ItemId)
    requires Consistent(w)
    requires (cid in w.customers || cid in w.carts) && ItemRestaurant(w.menu, itemId) == Some(rid)
    requires CartItemsOf(w, cid) != map[] ==> first in CartItemsOf(w, cid)
    ensures Consistent(AddLineSpec(w, cid, rid, itemId, quantity, first).1)
  {
    var cart := CartOrNew(w, cid);
    if SameRestaurant(w.menu, cart.items, first, rid).Ok? {
      if cart.items != map[] {
        forall i | i in cart.items ensures ItemRestaurant(w.menu, i) == Some(rid) {
          assert ItemRestaurant(w.menu, i) == ItemRestaurant(w.menu, first);
        }
      }
      MergeKeepsSingleRestaurant(w.menu, cart.items, itemId, quantity, rid);
      MergedKeys(cart.items, itemId, quantity);
      CartUpdateConsistent(w, cid, cart.(items := Merged(cart.items, itemId, quantity)));
    }
  }

  /** The one-restaurant rule and the merge keep every cart single-restaurant. */
  lemma AddLineSingleRestaurant(w: World, cid: CustomerId, rid: RestaurantId, itemId: ItemId, quantity: int, first: ItemId)
    requires CartsSingleRestaurant(w.carts, w.menu)
    requires ItemRestaurant(w.menu, itemId) == Some(rid)
    requires CartItemsOf(w, cid) != map[] ==> first in CartItemsOf(w, cid)
    ensures CartsSingleRestaurant(AddLineSpec(w, cid, rid, itemId, quantity, first).1.carts, w.menu)
  {
    var cart := CartOrNew(w, cid);
    if SameRestaurant(w.menu, cart.items, first, rid).Ok? {
      if cart.items != map[] {
        assert SingleRestaurant(w.menu, cart.items);
        forall i | i in cart.items ensures ItemRestaurant(w.menu, i) == Some(rid) {
          assert ItemRestaurant(w.menu, i) == ItemRestaurant(w.menu, first);
        }
      }
      MergeKeepsSingleRestaurant(w.menu, cart.items, itemId, quantity, rid);
    }
  }

  /** A successful add keeps the database consistent. */
  lemma AddToCartConsistent(w: World, email: string, itemId: ItemId, quantity: int, first: ItemId)
    requires Consistent(w)
    requires FirstOk(w, email, first)
    ensures Consistent(AddToCartSpec(w, email, itemId, quantity, first).1)
  {
    var res := AddToCartSpec(w, email, itemId, quantity, first);
    if res.0.Ok? {
      var cid := CustomerByEmail(w, email).value;
      CustomerByEmailFound(w, email);
      AddToCartKeepsSingleRestaurant(w, email, itemId, quantity, first);
      AddLineConsistent(w, cid, ItemGate(w, itemId).value, itemId, quantity, first);
    }
  }

  /** Steps 2-6 of CartController.addToCart. */
  method CheckItem(db: Store, itemId: ItemId) returns (g: Result<RestaurantId, CartError>)
    requires db.Valid()
    ensures g == ItemGate(db.View(), itemId)
  {
    if itemId !in db.menu {
      return Err(MenuItemNotFound);
    }
    var item := db.menu[itemId];
    if !item.available {
      return Err(ItemUnavailable);
    }
    if item.restaurant.None? {
      return Err(RestaurantNotApproved);
    }
    var rest := db.restaurants[item.restaurant.value];
    if !rest.approved {
      return Err(RestaurantNotApproved);
    }
    if rest.user.accountStatus == BANNED || rest.user.accountStatus == SUSPENDED {
      return Err(RestaurantUnavailable);
    }
    if !rest.isOpen {
      return Err(RestaurantClosed);
    }
    g := Ok(item.restaurant.value);
  }

  /** CartController.addToCart. */
  method AddToCart(db: Store, email: string, itemId: ItemId, quantity: int) returns (r: Result<(), CartError>, ghost first: ItemId)
    requires db.Valid()
    modifies db`carts
    ensures FirstOk(old(db.View()), email, first)
    ensures (r, db.View()) == AddToCartSpec(old(db.View()), email, itemId, quantity, first)
    ensures db.Valid()
  {
    ghost var w := db.View();
    first := 0;
    var found := FindCustomer(db, email);
    if found.None? {
      return Err(CustomerNotFound), first;
    }
    var cid := found.value;
    CustomerByEmailFound(w, email);
    if cid in db.carts && db.carts[cid].items != map[] {
      first := SomeKey(db.carts[cid].items);
    }
    var g := CheckItem(db, itemId);
    if g.Err? {
      return Err(g.error), first;
    }
    r, first := AddLine(db, cid, g.value, itemId, quantity);
  }

  /** Steps 7-9 of CartController.addToCart, once the customer and the item have passed. */
  method AddLine(db: Store, cid: CustomerId, rid: RestaurantId, itemId: ItemId, quantity: int) returns (r: Result<(), CartError>, ghost first: ItemId)
    requires db.Valid()
    requires (cid in db.customers || cid in db.carts) && ItemRestaurant(db.menu, itemId) == Some(rid)
    modifies db`carts
    ensures (r, db.View()) == AddLineSpec(old(db.View()), cid, rid, itemId, quantity, first)
    ensures CartItemsOf(old(db.View()), cid) != map[] ==> first in CartItemsOf(old(db.View()), cid)
    ensures db.Valid()
  {
    ghost var w := db.View();
    first := 0;
    var cart := db.LoadCart(cid);
    if cart == null {
      cart := new Cart("cart-" + cid, Some(cid));
    }
    if cart.items != map[] {
      var f := cart.FirstItem();
      first := f;
      var existing := ItemRestaurant(db.menu, f).value;
      if existing != rid {
        return Err(DifferentRestaurant), first;
      }
    }
    ghost var row := CartOrNew(w, cid);
    assert cart.Row() == row;
    assert SameRestaurant(w.menu, row.items, first, rid) == Ok(());
    AddLineConsistent(w, cid, rid, itemId, quantity, first);
    cart.AddItem(itemId, quantity);
    db.SaveCart(cid, cart);
    r := Ok(());
    assert db.View() == w.(carts := w.carts[cid := row.(items := Merged(row.items, itemId, quantity))]);
  }

  // ---------------------------------------------------------------------
  // showBasket
  // ---------------------------------------------------------------------

  /** BasketItemDTO. */
  datatype BasketItem = BasketItem(id: ItemId, name: string, price: int, description: string, quantity: int)

  /** The DTO list of a cart, one entry per line (a set: the list's order is the map's). */
  function BasketView(menu: map<ItemId, MenuItem>, items: map<ItemId, int>): set<BasketItem>
  {
    set i | i in items && i in menu :: BasketItem(i, menu[i].name, menu[i].price, menu[i].description, items[i])
  }

  /** Exactly one entry per line of the cart, carrying that line's quantity and the item's catalogue data. */
  lemma BasketViewLines(menu: map<ItemId, MenuItem>, items: map<ItemId, int>)
    requires items.Keys <= menu.Keys
    ensures forall b :: b in BasketView(menu, items) ==>
      b.id in items && b.quantity == items[b.id] && b.name == menu[b.id].name && b.price == menu[b.id].price
      && b.description == menu[b.id].description
    ensures forall i :: i in items ==> exists b :: b in BasketView(menu, items) && b.id == i
    ensures forall a, b :: a in BasketView(menu, items) && b in BasketView(menu, items) && a.id == b.id ==> a == b
  {
    forall i | i in items ensures exists b :: b in BasketView(menu, items) && b.id == i {
      var b := BasketItem(i, menu[i].name, menu[i].price, menu[i].description, items[i]);
      assert b in BasketView(menu, items);
    }
  }

  /** showBasket on a snapshot, given which line the iterator returns first. */
  ghost function ShowBasketSpec(w: World, email: string, first: ItemId): (res: (Result<set<BasketItem>, CartError>, World))
    ensures res.1 != w ==> res.0 == Err(RestaurantUnavailable)
  {
    match CustomerByEmail(w, email)
    case None => (Err(CustomerNotFound), w)
    case Some(cid) => ShowCartSpec(w, cid, first)
  }

  /** Lines 122-154: the customer's cart, read through its first line's restaurant. */
  function ShowCartSpec(w: World, cid: CustomerId, first: ItemId): (res: (Result<set<BasketItem>, CartError>, World))
    ensures res.1 != w ==> res.0 == Err(RestaurantUnavailable)
  {
    var items := CartItemsOf(w, cid);
    if items == map[] then (Ok({}), w)
    else match ItemRestaurant(w.menu, first)
      case None => (Err(NullReference), w)
      case Some(rid) =>
        if rid !in w.restaurants then (Err(NullReference), w)
        else if Blocked(w.restaurants[rid].user.accountStatus)
        then (Err(RestaurantUnavailable), w.(carts := w.carts[cid := w.carts[cid].(items := map[])]))
        else (Ok(BasketView(w.menu, items)), w)
  }

  /**
   * showBasket answers the cart's lines and changes nothing, except that a
   * cart whose restaurant is BANNED or SUSPENDED is emptied and the call is
   * refused; an absent or empty cart gives an empty list.
   */
  lemma ShowBasketOutcomes(w: World, email: string, first: ItemId)
    requires Consistent(w) && FirstOk(w, email, first)
    requires CustomerByEmail(w, email).Some?
    ensures var cid := CustomerByEmail(w, email).value;
      var res := ShowBasketSpec(w, email, first);
      && (CartItemsOf(w, cid) == map[] ==> res == (Ok({}), w))
      && (res.0.Ok? ==> res.1 == w && res.0.value == BasketView(w.menu, CartItemsOf(w, cid)))
  {
    var cid := CustomerByEmail(w, email).value;
    CustomerByEmailFound(w, email);
    if CartItemsOf(w, cid) != map[] {
      assert first in w.carts[cid].items;
      assert first in w.menu;
    }
  }

  /** A refusal empties the customer's cart and touches nothing else. */
  lemma ShowBasketRefusal(w: World, email: string, first: ItemId)
    requires Consistent(w) && FirstOk(w, email, first)
    requires CustomerByEmail(w, email).Some?
    requires ShowBasketSpec(w, email, first).0.Err?
    ensures var cid := CustomerByEmail(w, email).value;
      var w' := ShowBasketSpec(w, email, first).1;
      && ShowBasketSpec(w, email, first).0 == Err(RestaurantUnavailable)
      && cid in w'.carts && w'.carts[cid].items == map[]
      && w' == w.(carts := w'.carts)
      && (forall c :: c in w.carts && c != cid ==> c in w'.carts && w'.carts[c] == w.carts[c])
  {
    var cid := CustomerByEmail(w, email).value;
    CustomerByEmailFound(w, email);
    assert first in w.carts[cid].items;
    assert first in w.menu;
  }

  /**
   * When showBasket refuses (lines 131-137): a non-empty cart is refused
   * exactly when the restaurant of its first line is BANNED or SUSPENDED,
   * and is otherwise listed with nothing changed (139-154).
   */
  lemma ShowBasketBlocked(w: World, email: string, first: ItemId)
    requires Consistent(w) && FirstOk(w, email, first)
    requires CustomerByEmail(w, email).Some?
    requires CartItemsOf(w, CustomerByEmail(w, email).value) != map[]
    ensures ItemRestaurant(w.menu, first).Some?
    ensures ItemRestaurant(w.menu, first).value in w.restaurants
    ensures var cid := CustomerByEmail(w, email).value;
      var rid := ItemRestaurant(w.menu, first).value;
      var res := ShowBasketSpec(w, email, first);
      && (Blocked(w.restaurants[rid].user.accountStatus) ==> res.0 == Err(RestaurantUnavailable))
      && (!Blocked(w.restaurants[rid].user.accountStatus) ==> res == (Ok(BasketView(w.menu, CartItemsOf(w, cid))), w))
  {
    var cid := CustomerByEmail(w, email).value;
    CustomerByEmailFound(w, email);
    assert first in w.carts[cid].items;
    assert first in w.menu;
  }

  /** A cart whose restaurant is blocked is emptied by the first look at it; a second look then sees an empty cart. */
  lemma ShowBasketClearsOnce(w: World, email: string, first: ItemId, again: ItemId)
    requires Consistent(w) && FirstOk(w, email, first)
    requires ShowBasketSpec(w, email, first).0 == Err(RestaurantUnavailable)
    ensures ShowBasketSpec(ShowBasketSpec(w, email, first).1, email, again).0 == Ok({})
  {
    var w' := ShowBasketSpec(w, email, first).1;
    var cid := CustomerByEmail(w, email).value;
    CustomerByEmailFound(w, email);
    assert w'.customers == w.customers;
    assert CustomerByEmail(w', email) == CustomerByEmail(w, email);
  }

  /** CartController.showBasket. */
  method ShowBasket(db: Store, email: string) returns (r: Result<set<BasketItem>, CartError>, ghost first: ItemId)
    requires db.Valid()
    modifies db`carts
    ensures FirstOk(old(db.View()), email, first)
    ensures (r, db.View()) == ShowBasketSpec(old(db.View()), email, first)
    ensures db.Valid()
  {
    ghost var w := db.View();
    first := 0;
    var found := FindCustomer(db, email);
    if found.None? {
      return Err(CustomerNotFound), first;
    }
    var cid := found.value;
    CustomerByEmailFound(w, email);
    r, first := ShowCart(db, cid);
  }

  /** Lines 122-154 of CartController.showBasket, for a known customer. */
  method ShowCart(db: Store, cid: CustomerId) returns (r: Result<set<BasketItem>, CartError>, ghost first: ItemId)
    requires db.Valid()
    modifies db`carts
    ensures (r, db.View()) == ShowCartSpec(old(db.View()), cid, first)
    ensures CartItemsOf(old(db.View()), cid) != map[] ==> first in CartItemsOf(old(db.View()), cid)
    ensures db.Valid()
  {
    ghost var w := db.View();
    first := 0;
    var cart := db.LoadCart(cid);
    if cart == null || cart.items == map[] {
      return Ok({}), first;
    }
    var f := cart.FirstItem();
    first := f;
    assert SingleRestaurant(db.menu, cart.items);
    var rid := ItemRestaurant(db.menu, f).value;
    var rest := db.restaurants[rid];
    if rest.user.accountStatus == BANNED || rest.user.accountStatus == SUSPENDED {
      cart.Clear();
      CartUpdateConsistent(w, cid, cart.Row());
      db.SaveCart(cid, cart);
      return Err(RestaurantUnavailable), first;
    }
    var view := set i | i in cart.items && i in db.menu ::
      BasketItem(i, db.menu[i].name, db.menu[i].price, db.menu[i].description, cart.items[i]);
    r := Ok(view);
  }
}
