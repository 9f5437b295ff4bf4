// The JPA repositories of the backend, replaced by in-memory tables keyed by
// id. `Store` is the mutable database the controllers and services work on;
// `World` is its value snapshot, on which the operations are specified.
module Persistence {
  import opened Domain
  import opened Carts

  datatype World = World(
    menu: map<ItemId, MenuItem>,
    restaurants: map<RestaurantId, Restaurant>,
    customers: map<CustomerId, Customer>,
    couriers: map<CourierId, Courier>,
    admins: map<AdminId, Admin>,
    carts: map<CustomerId, CartRec>,
    orders: map<OrderId, Order>,
    requests: map<RequestId, Request>,
    nextRequestId: int,
    payments: map<string, Payment>)

  // ---------------------------------------------------------------------
  // Invariants of the database
  // ---------------------------------------------------------------------

  predicate RefOk<K, V>(r: Option<K>, table: map<K, V>)
  {
    r.Some? ==> r.value in table
  }

  // Foreign keys, one predicate per referencing table, over just the tables
  // involved: every reference a row holds names an existing row.

  predicate MenuRefs(menu: map<ItemId, MenuItem>, restaurants: map<RestaurantId, Restaurant>)
  {
    forall i :: i in menu ==> RefOk(menu[i].restaurant, restaurants)
  }

  predicate FavoriteRefs(customers: map<CustomerId, Customer>, restaurants: map<RestaurantId, Restaurant>)
  {
    forall c :: c in customers ==> customers[c].favorites <= restaurants.Keys
  }

  predicate CourierRefs(couriers: map<CourierId, Courier>, restaurants: map<RestaurantId, Restaurant>)
  {
    forall c :: c in couriers ==> RefOk(couriers[c].restaurantOwner, restaurants)
  }

  /** A cart holds existing items and is stored under the id of its customer, when it has one. */
  predicate CartRefs(carts: map<CustomerId, CartRec>, menu: map<ItemId, MenuItem>, customers: map<CustomerId, Customer>)
  {
    forall c :: c in carts ==>
      && carts[c].items.Keys <= menu.Keys
      && (carts[c].customer.Some? ==> carts[c].customer.value == c && c in customers)
  }

  predicate OrderRefsOk(o: Order, menu: map<ItemId, MenuItem>, customers: map<CustomerId, Customer>,
                        restaurants: map<RestaurantId, Restaurant>, couriers: map<CourierId, Courier>)
  {
    && o.items.Keys <= menu.Keys
    && RefOk(o.customer, customers)
    && RefOk(o.restaurant, restaurants)
    && RefOk(o.courier, couriers)
  }

  predicate OrderRefs(orders: map<OrderId, Order>, menu: map<ItemId, MenuItem>, customers: map<CustomerId, Customer>,
                      restaurants: map<RestaurantId, Restaurant>, couriers: map<CourierId, Courier>)
  {
    forall o :: o in orders ==> OrderRefsOk(orders[o], menu, customers, restaurants, couriers)
  }

  /** A request names an existing courier and restaurant; generated ids stay below the identity counter. */
  predicate RequestRefs(requests: map<RequestId, Request>, couriers: map<CourierId, Courier>, restaurants: map<RestaurantId, Restaurant>, next: int)
  {
    forall q :: q in requests ==> requests[q].courier in couriers && requests[q].restaurant in restaurants && q < next
  }

  predicate PaymentRefs(payments: map<string, Payment>, orders: map<OrderId, Order>)
  {
    forall p :: p in payments ==> payments[p].orderId in orders
  }

  /** Referential integrity of the whole database (the foreign keys of the schema). */
  predicate Integrity(w: World)
  {
    && MenuRefs(w.menu, w.restaurants)
    && FavoriteRefs(w.customers, w.restaurants)
    && CourierRefs(w.couriers, w.restaurants)
    && CartRefs(w.carts, w.menu, w.customers)
    && OrderRefs(w.orders, w.menu, w.customers, w.restaurants, w.couriers)
    && RequestRefs(w.requests, w.couriers, w.restaurants, w.nextRequestId)
    && PaymentRefs(w.payments, w.orders)
  }

  // The `email` column is unique in each user table.

  predicate CustomerEmailsUnique(customers: map<CustomerId, Customer>)
  {
    forall a, b :: a in customers && b in customers && customers[a].user.email == customers[b].user.email ==> a == b
  }
  predicate CourierEmailsUnique(couriers: map<CourierId, Courier>)
  {
    forall a, b :: a in couriers && b in couriers && couriers[a].user.email == couriers[b].user.email ==> a == b
  }
  predicate RestaurantEmailsUnique(restaurants: map<RestaurantId, Restaurant>)
  {
    forall a, b :: a in restaurants && b in restaurants && restaurants[a].user.email == restaurants[b].user.email ==> a == b
  }
  predicate AdminEmailsUnique(admins: map<AdminId, Admin>)
  {
    forall a, b :: a in admins && b in admins && admins[a].user.email == admins[b].user.email ==> a == b
  }

  predicate UniqueEmails(w: World)
  {
    && CustomerEmailsUnique(w.customers)
    && CourierEmailsUnique(w.couriers)
    && RestaurantEmailsUnique(w.restaurants)
    && AdminEmailsUnique(w.admins)
  }

  /** The restaurant a menu item belongs to; a missing item reads as null. */
  function ItemRestaurant(menu: map<ItemId, MenuItem>, item: ItemId): Option<RestaurantId>
  {
    if item in menu then menu[item].restaurant else None
  }

  /**
   * All lines of a cart come from one restaurant: every line has a
   * restaurant, and any two lines have the same one.
   */
  predicate SingleRestaurant(menu: map<ItemId, MenuItem>, items: map<ItemId, int>)
  {
    && (forall i :: i in items ==> ItemRestaurant(menu, i).Some?)
    && (forall i, j :: i in items && j in items ==> ItemRestaurant(menu, i) == ItemRestaurant(menu, j))
  }

  predicate CartsSingleRestaurant(carts: map<CustomerId, CartRec>, menu: map<ItemId, MenuItem>)
  {
    forall c :: c in carts ==> SingleRestaurant(menu, carts[c].items)
  }

  /** Every stored status is in normal form, so reading its string back gives the same status. */
  predicate StatusesCanonical(orders: map<OrderId, Order>)
  {
    forall o :: o in orders ==> Canonical(orders[o].status)
  }

  predicate Consistent(w: World)
  {
    Integrity(w) && UniqueEmails(w) && CartsSingleRestaurant(w.carts, w.menu) && StatusesCanonical(w.orders)
  }

  /** Replacing one cart row by a well-formed one keeps the database consistent. */
  lemma CartUpdateConsistent(w: World, cid: CustomerId, cart: CartRec)
    requires Consistent(w)
    requires cart.items.Keys <= w.menu.Keys
    requires cart.customer.Some? ==> cart.customer.value == cid && cid in w.customers
    requires SingleRestaurant(w.menu, cart.items)
    ensures Consistent(w.(carts := w.carts[cid := cart]))
  {
    var w' := w.(carts := w.carts[cid := cart]);
    assert CartRefs(w'.carts, w'.menu, w'.customers);
    assert CartsSingleRestaurant(w'.carts, w'.menu);
  }

  /** Writing a new status into an order keeps the database consistent. */
  lemma SetStatusConsistent(w: World, orderId: OrderId, status: OrderStatus)
    requires Consistent(w) && orderId in w.orders && Canonical(status)
    ensures Consistent(w.(orders := w.orders[orderId := w.orders[orderId].(status := status)]))
  {
    var w' := w.(orders := w.orders[orderId := w.orders[orderId].(status := status)]);
    assert OrderRefsOk(w'.orders[orderId], w.menu, w.customers, w.restaurants, w.couriers);
    assert OrderRefs(w'.orders, w'.menu, w'.customers, w'.restaurants, w'.couriers);
    assert PaymentRefs(w'.payments, w'.orders);
    assert StatusesCanonical(w'.orders);
  }

  /** Rewriting a restaurant row in place, e-mail unchanged, keeps the database consistent. */
  lemma RestaurantUpdateConsistent(w: World, rid: RestaurantId, r: Restaurant)
    requires Consistent(w) && rid in w.restaurants
    requires r.user.email == w.restaurants[rid].user.email
    ensures Consistent(w.(restaurants := w.restaurants[rid := r]))
  {
    var w' := w.(restaurants := w.restaurants[rid := r]);
    assert w'.restaurants.Keys == w.restaurants.Keys;
    assert RestaurantEmailsUnique(w'.restaurants);
    assert Integrity(w');
  }

  /** Rewriting a customer row in place, e-mail and favourites unchanged, keeps the database consistent. */
  lemma CustomerUpdateConsistent(w: World, cid: CustomerId, c: Customer)
    requires Consistent(w) && cid in w.customers
    requires c.user.email == w.customers[cid].user.email && c.favorites == w.customers[cid].favorites
    ensures Consistent(w.(customers := w.customers[cid := c]))
  {
    var w' := w.(customers := w.customers[cid := c]);
    assert w'.customers.Keys == w.customers.Keys;
    assert CustomerEmailsUnique(w'.customers);
    assert FavoriteRefs(w'.customers, w'.restaurants);
    assert CartRefs(w'.carts, w'.menu, w'.customers);
    assert OrderRefs(w'.orders, w'.menu, w'.customers, w'.restaurants, w'.couriers);
  }

  /** Rewriting a courier row in place, e-mail and affiliation unchanged, keeps the database consistent. */
  lemma CourierUpdateConsistent(w: World, kid: CourierId, k: Courier)
    requires Consistent(w) && kid in w.couriers
    requires k.user.email == w.couriers[kid].user.email && k.restaurantOwner == w.couriers[kid].restaurantOwner
    ensures Consistent(w.(couriers := w.couriers[kid := k]))
  {
    var w' := w.(couriers := w.couriers[kid := k]);
    assert w'.couriers.Keys == w.couriers.Keys;
    assert CourierEmailsUnique(w'.couriers);
    assert CourierRefs(w'.couriers, w'.restaurants);
    assert RequestRefs(w'.requests, w'.couriers, w'.restaurants, w'.nextRequestId);
    assert OrderRefs(w'.orders, w'.menu, w'.customers, w'.restaurants, w'.couriers);
  }

  /** Rewriting an admin row in place, e-mail unchanged, keeps the database consistent. */
  lemma AdminUpdateConsistent(w: World, aid: AdminId, a: Admin)
    requires Consistent(w) && aid in w.admins
    requires a.user.email == w.admins[aid].user.email
    ensures Consistent(w.(admins := w.admins[aid := a]))
  {
    var w' := w.(admins := w.admins[aid := a]);
    assert AdminEmailsUnique(w'.admins);
  }

  // ---------------------------------------------------------------------
  // Lookups by e-mail (findByEmail in each repository)
  // ---------------------------------------------------------------------

  // Each lookup reads only its own table, so a change to another table leaves it alone.

  ghost function CustomerByEmail(w: World, email: string): Option<CustomerId>
  {
    CustomerIn(w.customers, email)
  }

  ghost function CustomerIn(customers: map<CustomerId, Customer>, email: string): Option<CustomerId>
  {
    if exists c :: c in customers && customers[c].user.email == email
    then Some(var c :| c in customers && customers[c].user.email == email; c)
    else None
  }

  ghost function CourierByEmail(w: World, email: string): Option<CourierId>
  {
    CourierIn(w.couriers, email)
  }

  ghost function CourierIn(couriers: map<CourierId, Courier>, email: string): Option<CourierId>
  {
    if exists c :: c in couriers && couriers[c].user.email == email
    then Some(var c :| c in couriers && couriers[c].user.email == email; c)
    else None
  }

  ghost function RestaurantByEmail(w: World, email: string): Option<RestaurantId>
  {
    RestaurantIn(w.restaurants, email)
  }

  ghost function RestaurantIn(restaurants: map<RestaurantId, Restaurant>, email: string): Option<RestaurantId>
  {
    if exists r :: r in restaurants && restaurants[r].user.email == email
    then Some(var r :| r in restaurants && restaurants[r].user.email == email; r)
    else None
  }

  ghost function AdminByEmail(w: World, email: string): Option<AdminId>
  {
    AdminIn(w.admins, email)
  }

  ghost function AdminIn(admins: map<AdminId, Admin>, email: string): Option<AdminId>
  {
    if exists a :: a in admins && admins[a].user.email == email
    then Some(var a :| a in admins && admins[a].user.email == email; a)
    else None
  }

  /** What a lookup by e-mail finds, and that it finds nothing only when no row has that e-mail. */
  lemma CustomerByEmailFound(w: World, email: string)
    ensures CustomerByEmail(w, email).Some? ==>
      CustomerByEmail(w, email).value in w.customers && w.customers[CustomerByEmail(w, email).value].user.email == email
    ensures CustomerByEmail(w, email).None? <==> forall c :: c in w.customers ==> w.customers[c].user.email != email
  {
  }

  lemma CourierByEmailFound(w: World, email: string)
    ensures CourierByEmail(w, email).Some? ==>
      CourierByEmail(w, email).value in w.couriers && w.couriers[CourierByEmail(w, email).value].user.email == email
    ensures CourierByEmail(w, email).None? <==> forall c :: c in w.couriers ==> w.couriers[c].user.email != email
  {
  }

  lemma RestaurantByEmailFound(w: World, email: string)
    ensures RestaurantByEmail(w, email).Some? ==>
      RestaurantByEmail(w, email).value in w.restaurants && w.restaurants[RestaurantByEmail(w, email).value].user.email == email
    ensures RestaurantByEmail(w, email).None? <==> forall r :: r in w.restaurants ==> w.restaurants[r].user.email != email
  {
  }

  lemma AdminByEmailFound(w: World, email: string)
    ensures AdminByEmail(w, email).Some? ==>
      AdminByEmail(w, email).value in w.admins && w.admins[AdminByEmail(w, email).value].user.email == email
    ensures AdminByEmail(w, email).None? <==> forall a :: a in w.admins ==> w.admins[a].user.email != email
  {
  }

  // ---------------------------------------------------------------------
  // The database
  // ---------------------------------------------------------------------

  /**
   * The database. Every table is a map the operations reassign; a cart is
   * loaded into a fresh `Cart` entity, changed in place and saved back.
   */
  class Store {
    var menu: map<ItemId, MenuItem>
    var restaurants: map<RestaurantId, Restaurant>
    var customers: map<CustomerId, Customer>
    var couriers: map<CourierId, Courier>
    var admins: map<AdminId, Admin>
    var carts: map<CustomerId, CartRec>
    var orders: map<OrderId, Order>
    var requests: map<RequestId, Request>
    var nextRequestId: int
    var payments: map<string, Payment>

    function View(): World
      reads this
    {
      World(menu, restaurants, customers, couriers, admins, carts, orders, requests, nextRequestId, payments)
    }

    ghost predicate Valid()
      reads this
    {
      Consistent(View())
    }

    /** An empty database. */
    constructor ()
      ensures Valid()
      ensures View() == World(map[], map[], map[], map[], map[], map[], map[], map[], 0, map[])
    {
      menu, restaurants, customers, couriers, admins := map[], map[], map[], map[], map[];
      carts, orders, requests, nextRequestId, payments := map[], map[], map[], 0, map[];
    }

    /**
     * The end of a @Transactional method: the changed tables are flushed, and
     * the database refuses the flush, rolling every change back, when a
     * foreign key of the new state names a deleted row.
     */
    method Commit(w': World) returns (ok: bool)
      modifies this
      ensures ok <==> Integrity(w')
      ensures View() == if ok then w' else old(View())
    {
      ok := Integrity(w');
      if ok {
        menu, restaurants, customers, couriers, admins := w'.menu, w'.restaurants, w'.customers, w'.couriers, w'.admins;
        carts, orders, requests, nextRequestId, payments := w'.carts, w'.orders, w'.requests, w'.nextRequestId, w'.payments;
      }
    }

    /** cartRepository.findByCustomerId: the stored cart as a fresh entity, or null. */
    method LoadCart(cid: CustomerId) returns (cart: Cart?)
      ensures cart != null <==> cid in carts
      ensures cart != null ==> fresh(cart) && cart.Row() == carts[cid]
    {
      if cid in carts {
        var row := carts[cid];
        cart := new Cart(row.id, row.customer);
        cart.items := row.items;
      } else {
        cart := null;
      }
    }

    /** cartRepository.save: the entity's state becomes the customer's cart row. */
    method SaveCart(cid: CustomerId, cart: Cart)
      modifies this`carts
      ensures carts == old(carts)[cid := cart.Row()]
    {
      carts := carts[cid := cart.Row()];
    }
  }

  // ---------------------------------------------------------------------
  // Repository queries used by several controllers
  // ---------------------------------------------------------------------

  /** customerRepository.findByEmail. */
  method FindCustomer(db: Store, email: string) returns (c: Option<CustomerId>)
    requires db.Valid()
    ensures c == CustomerByEmail(db.View(), email)
  {
    if k :| k in db.customers && db.customers[k].user.email == email {
      c := Some(k);
    } else {
      c := None;
    }
  }

  /** courierRepository.findByEmail. */
  method FindCourier(db: Store, email: string) returns (c: Option<CourierId>)
    requires db.Valid()
    ensures c == CourierByEmail(db.View(), email)
  {
    if k :| k in db.couriers && db.couriers[k].user.email == email {
      c := Some(k);
    } else {
      c := None;
    }
  }

  /** restaurantOwnerRepository.findByEmail. */
  method FindRestaurant(db: Store, email: string) returns (r: Option<RestaurantId>)
    requires db.Valid()
    ensures r == RestaurantByEmail(db.View(), email)
  {
    if k :| k in db.restaurants && db.restaurants[k].user.email == email {
      r := Some(k);
    } else {
      r := None;
    }
  }

  /** adminRepository.findByEmail. */
  method FindAdmin(db: Store, email: string) returns (a: Option<AdminId>)
    requires db.Valid()
    ensures a == AdminByEmail(db.View(), email)
  {
    if k :| k in db.admins && db.admins[k].user.email == email {
      a := Some(k);
    } else {
      a := None;
    }
  }
}
