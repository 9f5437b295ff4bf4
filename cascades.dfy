// The clean-up loops of the account deletions (AdminController.deleteUserByEmail
// and ProfileController.deleteAccount): before a user row is deleted, the rows
// that point at it are rewritten one by one, and the whole transaction commits
// only if no foreign key is left dangling.
module Cascades {
  import opened Domain
  import opened Persistence
  import opened Carts
  import opened Accounts

  /**
   * The `for (X x : list) { change x; repository.save(x); }` loops: `f` is
   * applied to the rows under `keys`, one row at a time; the other rows
   * keep their values.
   */
  method UpdateEach<K, V>(m: map<K, V>, keys: set<K>, f: V -> V) returns (r: map<K, V>)
    requires keys <= m.Keys
    ensures r.Keys == m.Keys
    ensures forall k :: k in m ==> r[k] == if k in keys then f(m[k]) else m[k]
  {
    r := m;
    var left := keys;
    while left != {}
      invariant left <= keys
      invariant r.Keys == m.Keys
      invariant forall k :: k in m ==> r[k] == if k in keys - left then f(m[k]) else m[k]
      decreases |left|
    {
      ghost var some := SomeElement(left);
      var k :| k in left;
      r := r[k := f(r[k])];
      left := left - {k};
    }
  }

  // ---------------------------------------------------------------------
  // The rewritten tables
  // ---------------------------------------------------------------------

  /** Every order of the party with its reference to the party nulled. */
  function Unlinked(orders: map<OrderId, Order>, p: Party): map<OrderId, Order>
  {
    map o | o in orders :: if Involves(orders[o], p) then Unlink(orders[o], p) else orders[o]
  }

  /** menuItemRepository.findByRestaurantRestaurantId. */
  function ItemsOf(menu: map<ItemId, MenuItem>, rid: RestaurantId): set<ItemId>
  {
    set i | i in menu && menu[i].restaurant == Some(rid)
  }

  /** No line of the cart or order is one of the given menu items. */
  predicate HoldsNone(items: map<ItemId, int>, doomed: set<ItemId>)
  {
    forall i :: i in items ==> i !in doomed
  }

  /** Every order with the given menu items taken out of its lines. */
  function WithoutItems(orders: map<OrderId, Order>, items: set<ItemId>): map<OrderId, Order>
  {
    map o | o in orders :: orders[o].(items := orders[o].items - items)
  }

  /** Every courier working for the restaurant left without one. */
  function Disassociated(couriers: map<CourierId, Courier>, rid: RestaurantId): map<CourierId, Courier>
  {
    map k | k in couriers :: if couriers[k].restaurantOwner == Some(rid) then couriers[k].(restaurantOwner := None) else couriers[k]
  }

  /** Every customer with the restaurant taken out of its favorites. */
  function Unfavorited(customers: map<CustomerId, Customer>, rid: RestaurantId): map<CustomerId, Customer>
  {
    map c | c in customers :: customers[c].(favorites := customers[c].favorites - {rid})
  }

  /** courierRestaurantRequestRepository.findByRestaurantRestaurantId / findByCourierCourierId. */
  function RequestsOf(requests: map<RequestId, Request>, p: Party): set<RequestId>
  {
    set q | q in requests &&
      match p
      case AsRestaurant(r) => requests[q].restaurant == r
      case AsCourier(k) => requests[q].courier == k
      case AsCustomer(_) => false
  }

  /** cartRepository.findByCustomerId followed by delete, when a cart is found. */
  function WithoutCart(carts: map<CustomerId, CartRec>, cid: CustomerId): map<CustomerId, CartRec>
  {
    if cid in carts && carts[cid].customer == Some(cid) then carts - {cid} else carts
  }

  // ---------------------------------------------------------------------
  // The loops
  // ---------------------------------------------------------------------

  /** Nulls the party's reference on each of its orders (order.setCustomer(null), setRestaurant(null), setCourier(null)). */
  method UnlinkOrders(orders: map<OrderId, Order>, p: Party) returns (r: map<OrderId, Order>)
    ensures r == Unlinked(orders, p)
  {
    r := UpdateEach(orders, OrdersOf(orders, p), o => Unlink(o, p));
  }

  /**
   * The nested loop of the restaurant deletion: for each menu item, each
   * order holding it loses that line.
   */
  method StripItems(orders: map<OrderId, Order>, items: set<ItemId>) returns (r: map<OrderId, Order>)
    ensures r == WithoutItems(orders, items)
  {
    r := orders;
    var left := items;
    assert WithoutItems(orders, {}) == orders by {
      forall o | o in orders
        ensures orders[o].(items := orders[o].items - {}) == orders[o]
      {
        assert orders[o].items - {} == orders[o].items;
      }
    }
    assert items - left == {};
    while left != {}
      invariant left <= items
      invariant r == WithoutItems(orders, items - left)
      decreases |left|
    {
      ghost var some := SomeElement(left);
      var item :| item in left;
      var holding := set o | o in r && item in r[o].items;
      ghost var before := r;
      r := UpdateEach(r, holding, (o: Order) => o.(items := o.items - {item}));
      assert forall o :: o in r ==> r[o].items == orders[o].items - (items - (left - {item})) by {
        forall o | o in r
          ensures r[o].items == orders[o].items - (items - (left - {item}))
        {
          assert before[o].items == orders[o].items - (items - left);
        }
      }
      left := left - {item};
    }
    assert items - left == items;
  }

  /** Disassociates each courier of the restaurant (courier.setRestaurantOwner(null)). */
  method DisassociateCouriers(couriers: map<CourierId, Courier>, rid: RestaurantId) returns (r: map<CourierId, Courier>)
    ensures r == Disassociated(couriers, rid)
  {
    var hired := set k | k in couriers && couriers[k].restaurantOwner == Some(rid);
    r := UpdateEach(couriers, hired, (c: Courier) => c.(restaurantOwner := None));
  }

  /** Takes the restaurant out of the favorites of each customer that has it. */
  method RemoveFavorites(customers: map<CustomerId, Customer>, rid: RestaurantId) returns (r: map<CustomerId, Customer>)
    ensures r == Unfavorited(customers, rid)
  {
    var fans := set c | c in customers && rid in customers[c].favorites;
    r := UpdateEach(customers, fans, (c: Customer) => c.(favorites := c.favorites - {rid}));
    forall c | c in customers && c !in fans
      ensures customers[c].favorites - {rid} == customers[c].favorites
    {
    }
  }

  // ---------------------------------------------------------------------
  // The commit
  // ---------------------------------------------------------------------

  /** The state after a deletion transaction: its changes, or nothing when the flush is refused. */
  function Committed(w: World, w': World): (r: World)
    ensures r == w' || r == w
    ensures r == w' <== Integrity(w')
  {
    if Integrity(w') then w' else w
  }

  /**
   * What a deletion keeps of the database: every surviving user row keeps
   * its e-mail, every surviving menu item its restaurant, every surviving
   * cart a subset of its lines and every surviving order its status.
   */
  predicate Shrinks(w: World, w': World)
  {
    && w'.customers.Keys <= w.customers.Keys
    && (forall c :: c in w'.customers ==> w'.customers[c].user.email == w.customers[c].user.email)
    && w'.couriers.Keys <= w.couriers.Keys
    && (forall k :: k in w'.couriers ==> w'.couriers[k].user.email == w.couriers[k].user.email)
    && w'.restaurants.Keys <= w.restaurants.Keys
    && (forall r :: r in w'.restaurants ==> w'.restaurants[r].user.email == w.restaurants[r].user.email)
    && w'.admins == w.admins
    && w'.menu.Keys <= w.menu.Keys
    && (forall i :: i in w'.menu ==> w'.menu[i].restaurant == w.menu[i].restaurant)
    && w'.carts.Keys <= w.carts.Keys
    && (forall c :: c in w'.carts ==> w'.carts[c].items == w.carts[c].items)
    && w'.orders.Keys <= w.orders.Keys
    && (forall o :: o in w'.orders ==> w'.orders[o].status == w.orders[o].status)
  }

  /** A deletion that commits keeps the database consistent: the flush checked the keys, and the rest survives removal. */
  lemma ShrinkConsistent(w: World, w': World)
    requires Consistent(w) && Shrinks(w, w') && Integrity(w')
    ensures Consistent(w')
  {
    assert CustomerEmailsUnique(w'.customers);
    assert CourierEmailsUnique(w'.couriers);
    assert RestaurantEmailsUnique(w'.restaurants);
    forall c | c in w'.carts
      ensures SingleRestaurant(w'.menu, w'.carts[c].items)
    {
      var items := w'.carts[c].items;
      assert SingleRestaurant(w.menu, items);
      assert forall i :: i in items ==> ItemRestaurant(w'.menu, i) == ItemRestaurant(w.menu, i);
    }
    assert StatusesCanonical(w'.orders);
  }

  // ---------------------------------------------------------------------
  // The deletions of AdminController.deleteUserByEmail (lines 141-207)
  // ---------------------------------------------------------------------

  /** Customer: its orders lose their customer, its cart and then the customer are deleted. */
  function CustomerPurged(w: World, cid: CustomerId): World
  {
    w.(orders := Unlinked(w.orders, AsCustomer(cid)),
       carts := WithoutCart(w.carts, cid),
       customers := w.customers - {cid})
  }

  /**
   * Restaurant: its orders lose their restaurant, its menu items leave every
   * order and are deleted, its couriers are disassociated, its requests are
   * deleted, it leaves every customer's favorites, and it is deleted.
   */
  function RestaurantPurged(w: World, rid: RestaurantId): World
  {
    var doomed := ItemsOf(w.menu, rid);
    w.(orders := WithoutItems(Unlinked(w.orders, AsRestaurant(rid)), doomed),
       menu := w.menu - doomed,
       couriers := Disassociated(w.couriers, rid),
       requests := w.requests - RequestsOf(w.requests, AsRestaurant(rid)),
       customers := Unfavorited(w.customers, rid),
       restaurants := w.restaurants - {rid})
  }

  /** Courier (both controllers): its orders lose their courier, its requests and then the courier are deleted. */
  function CourierPurged(w: World, kid: CourierId): World
  {
    w.(orders := Unlinked(w.orders, AsCourier(kid)),
       requests := w.requests - RequestsOf(w.requests, AsCourier(kid)),
       couriers := w.couriers - {kid})
  }

  /**
   * The customer is gone, no cart of it remains, none of its orders refers
   * to it any more, and those orders keep every other column; nothing else
   * changes.
   */
  lemma CustomerPurgedExact(w: World, cid: CustomerId)
    ensures var w' := CustomerPurged(w, cid);
      && w'.customers == w.customers - {cid}
      && (cid in w'.carts ==> w'.carts[cid].customer != Some(cid))
      && w'.carts.Keys >= w.carts.Keys - {cid}
      && w'.orders.Keys == w.orders.Keys
      && OrdersOf(w'.orders, AsCustomer(cid)) == {}
      && (forall o :: o in w.orders ==> w'.orders[o].(customer := w.orders[o].customer) == w.orders[o])
      && (forall o :: o in w.orders && !Involves(w.orders[o], AsCustomer(cid)) ==> w'.orders[o] == w.orders[o])
      && w' == w.(orders := w'.orders, carts := w'.carts, customers := w'.customers)
  {
  }

  /** Nulling the references to a party keeps every other reference of the orders. */
  lemma UnlinkedRefs(orders: map<OrderId, Order>, p: Party, menu: map<ItemId, MenuItem>, customers: map<CustomerId, Customer>,
                     restaurants: map<RestaurantId, Restaurant>, couriers: map<CourierId, Courier>)
    requires OrderRefs(orders, menu, customers, restaurants, couriers)
    ensures p.AsCustomer? ==> OrderRefs(Unlinked(orders, p), menu, customers - {p.id}, restaurants, couriers)
    ensures p.AsRestaurant? ==> OrderRefs(Unlinked(orders, p), menu, customers, restaurants - {p.id}, couriers)
    ensures p.AsCourier? ==> OrderRefs(Unlinked(orders, p), menu, customers, restaurants, couriers - {p.id})
  {
    var u := Unlinked(orders, p);
    forall o | o in u
      ensures p.AsCustomer? ==> OrderRefsOk(u[o], menu, customers - {p.id}, restaurants, couriers)
      ensures p.AsRestaurant? ==> OrderRefsOk(u[o], menu, customers, restaurants - {p.id}, couriers)
      ensures p.AsCourier? ==> OrderRefsOk(u[o], menu, customers, restaurants, couriers - {p.id})
    {
      assert OrderRefsOk(orders[o], menu, customers, restaurants, couriers);
    }
  }

  /** Nothing can refuse the customer's deletion: every reference to it has been removed first. */
  lemma CustomerPurgedCommits(w: World, cid: CustomerId)
    requires Consistent(w) && cid in w.customers
    ensures Integrity(CustomerPurged(w, cid))
    ensures Consistent(CustomerPurged(w, cid))
  {
    CustomerPurgedIntegrity(w, cid);
    CustomerPurgedShrinks(w, cid);
    ShrinkConsistent(w, CustomerPurged(w, cid));
  }

  lemma CustomerPurgedIntegrity(w: World, cid: CustomerId)
    requires Consistent(w) && cid in w.customers
    ensures Integrity(CustomerPurged(w, cid))
  {
    var w' := CustomerPurged(w, cid);
    UnlinkedRefs(w.orders, AsCustomer(cid), w.menu, w.customers, w.restaurants, w.couriers);
    WithoutCartRefs(w.carts, cid, w.menu, w.customers);
    assert w'.orders.Keys == w.orders.Keys;
  }

  lemma CustomerPurgedShrinks(w: World, cid: CustomerId)
    ensures Shrinks(w, CustomerPurged(w, cid))
  {
  }

  /** Deleting the customer's own cart leaves no cart naming the deleted customer. */
  lemma WithoutCartRefs(carts: map<CustomerId, CartRec>, cid: CustomerId, menu: map<ItemId, MenuItem>, customers: map<CustomerId, Customer>)
    requires CartRefs(carts, menu, customers)
    ensures CartRefs(WithoutCart(carts, cid), menu, customers - {cid})
  {
  }

  /**
   * No reference to the restaurant survives its deletion: no order, courier,
   * request or favorite names it and no order holds one of its items. Orders,
   * couriers and customers are rewritten, never deleted.
   */
  lemma RestaurantPurgedExact(w: World, rid: RestaurantId)
    ensures var w' := RestaurantPurged(w, rid);
      && w'.restaurants == w.restaurants - {rid}
      && w'.menu.Keys == w.menu.Keys - ItemsOf(w.menu, rid)
      && (forall i :: i in w'.menu ==> w'.menu[i].restaurant != Some(rid))
      && w'.orders.Keys == w.orders.Keys
      && (forall o :: o in w'.orders ==> !Involves(w'.orders[o], AsRestaurant(rid)) && HoldsNone(w'.orders[o].items, ItemsOf(w.menu, rid)))
      && w'.couriers.Keys == w.couriers.Keys
      && (forall k :: k in w'.couriers ==> w'.couriers[k].restaurantOwner != Some(rid))
      && (forall q :: q in w'.requests ==> w'.requests[q].restaurant != rid)
      && w'.customers.Keys == w.customers.Keys
      && (forall c :: c in w'.customers ==> rid !in w'.customers[c].favorites)
      && w'.carts == w.carts
  {
  }

  /** Taking the deleted items out of the orders leaves their other references as they were. */
  lemma WithoutItemsRefs(orders: map<OrderId, Order>, doomed: set<ItemId>, menu: map<ItemId, MenuItem>, customers: map<CustomerId, Customer>,
                         restaurants: map<RestaurantId, Restaurant>, couriers: map<CourierId, Courier>)
    requires OrderRefs(orders, menu, customers, restaurants, couriers)
    ensures OrderRefs(WithoutItems(orders, doomed), menu - doomed, customers, restaurants, couriers)
  {
    var u := WithoutItems(orders, doomed);
    forall o | o in u
      ensures OrderRefsOk(u[o], menu - doomed, customers, restaurants, couriers)
    {
      assert OrderRefsOk(orders[o], menu, customers, restaurants, couriers);
    }
  }

  /** Every table but the carts keeps its foreign keys through the restaurant's clean-up. */
  lemma RestaurantPurgedRefs(w: World, rid: RestaurantId)
    requires Consistent(w) && rid in w.restaurants
    ensures var w' := RestaurantPurged(w, rid);
      && MenuRefs(w'.menu, w'.restaurants)
      && FavoriteRefs(w'.customers, w'.restaurants)
      && CourierRefs(w'.couriers, w'.restaurants)
      && OrderRefs(w'.orders, w'.menu, w'.customers, w'.restaurants, w'.couriers)
      && RequestRefs(w'.requests, w'.couriers, w'.restaurants, w'.nextRequestId)
      && PaymentRefs(w'.payments, w'.orders)
  {
    RestaurantPurgedOrderRefs(w, rid);
    RestaurantPurgedOtherRefs(w, rid);
  }

  /** Orders lose the restaurant and its items, so they name only surviving rows. */
  lemma RestaurantPurgedOrderRefs(w: World, rid: RestaurantId)
    requires Consistent(w) && rid in w.restaurants
    ensures var w' := RestaurantPurged(w, rid);
      OrderRefs(w'.orders, w'.menu, w'.customers, w'.restaurants, w'.couriers)
  {
    var w' := RestaurantPurged(w, rid);
    UnlinkedRefs(w.orders, AsRestaurant(rid), w.menu, w.customers, w.restaurants, w.couriers);
    var u := Unlinked(w.orders, AsRestaurant(rid));
    WithoutItemsRefs(u, ItemsOf(w.menu, rid), w.menu, w.customers, w.restaurants - {rid}, w.couriers);
    assert OrderRefs(w'.orders, w'.menu, w.customers, w'.restaurants, w.couriers);
    forall o | o in w'.orders
      ensures OrderRefsOk(w'.orders[o], w'.menu, w'.customers, w'.restaurants, w'.couriers)
    {
      assert OrderRefsOk(w'.orders[o], w'.menu, w.customers, w'.restaurants, w.couriers);
    }
  }

  /** Menu, favourites, couriers, requests and payments name no deleted row. */
  lemma RestaurantPurgedOtherRefs(w: World, rid: RestaurantId)
    requires Consistent(w) && rid in w.restaurants
    ensures var w' := RestaurantPurged(w, rid);
      && MenuRefs(w'.menu, w'.restaurants)
      && FavoriteRefs(w'.customers, w'.restaurants)
      && CourierRefs(w'.couriers, w'.restaurants)
      && RequestRefs(w'.requests, w'.couriers, w'.restaurants, w'.nextRequestId)
      && PaymentRefs(w'.payments, w'.orders)
  {
    var w' := RestaurantPurged(w, rid);
    assert w'.orders.Keys == w.orders.Keys;
  }

  /**
   * The restaurant's deletion commits exactly when no cart holds one of its
   * menu items: the carts are the one table the clean-up forgets.
   */
  lemma RestaurantPurgedCommits(w: World, rid: RestaurantId)
    requires Consistent(w) && rid in w.restaurants
    ensures Integrity(RestaurantPurged(w, rid)) <==>
      forall c :: c in w.carts ==> HoldsNone(w.carts[c].items, ItemsOf(w.menu, rid))
    ensures Integrity(RestaurantPurged(w, rid)) ==> Consistent(RestaurantPurged(w, rid))
  {
    var w' := RestaurantPurged(w, rid);
    var doomed := ItemsOf(w.menu, rid);
    if forall c :: c in w.carts ==> HoldsNone(w.carts[c].items, doomed) {
      RestaurantPurgedRefs(w, rid);
      assert CartRefs(w'.carts, w'.menu, w'.customers) by {
        assert CartRefs(w.carts, w.menu, w.customers);
        forall c, i | c in w.carts && i in w.carts[c].items
          ensures i in w'.menu
        {
          assert HoldsNone(w.carts[c].items, doomed);
        }
      }
      assert Integrity(w');
      RestaurantPurgedShrinks(w, rid);
      ShrinkConsistent(w, w');
    } else {
      var c :| c in w.carts && !HoldsNone(w.carts[c].items, doomed);
      var i :| i in w.carts[c].items && i in doomed;
      assert !CartRefs(w'.carts, w'.menu, w'.customers);
    }
  }

  lemma RestaurantPurgedShrinks(w: World, rid: RestaurantId)
    ensures Shrinks(w, RestaurantPurged(w, rid))
  {
  }

  /** The courier and its requests are gone, and no order refers to it; those orders keep every other column. */
  lemma CourierPurgedExact(w: World, kid: CourierId)
    ensures var w' := CourierPurged(w, kid);
      && w'.couriers == w.couriers - {kid}
      && (forall q :: q in w'.requests ==> w'.requests[q].courier != kid)
      && (forall q :: q in w.requests && w.requests[q].courier != kid ==> q in w'.requests)
      && w'.orders.Keys == w.orders.Keys
      && OrdersOf(w'.orders, AsCourier(kid)) == {}
      && (forall o :: o in w.orders ==> w'.orders[o].(courier := w.orders[o].courier) == w.orders[o])
      && w' == w.(orders := w'.orders, requests := w'.requests, couriers := w'.couriers)
  {
  }

  /** Nothing can refuse the courier's deletion. */
  lemma CourierPurgedCommits(w: World, kid: CourierId)
    requires Consistent(w) && kid in w.couriers
    ensures Integrity(CourierPurged(w, kid))
    ensures Consistent(CourierPurged(w, kid))
  {
    var w' := CourierPurged(w, kid);
    UnlinkedRefs(w.orders, AsCourier(kid), w.menu, w.customers, w.restaurants, w.couriers);
    assert RequestRefs(w'.requests, w'.couriers, w'.restaurants, w'.nextRequestId);
    assert PaymentRefs(w'.payments, w'.orders);
    assert CourierRefs(w'.couriers, w'.restaurants);
    assert Integrity(w');
    ShrinkConsistent(w, w');
  }

  // ---------------------------------------------------------------------
  // The deletion transactions
  // ---------------------------------------------------------------------

  /** The customer case of deleteUserByEmail, lines 142-153. */
  method PurgeCustomer(db: Store, cid: CustomerId) returns (ok: bool)
    requires db.Valid() && cid in db.customers
    modifies db
    ensures ok && db.View() == CustomerPurged(old(db.View()), cid)
    ensures db.Valid()
  {
    CustomerPurgedCommits(db.View(), cid);
    var orders := UnlinkOrders(db.orders, AsCustomer(cid));
    var carts := if cid in db.carts && db.carts[cid].customer == Some(cid) then db.carts - {cid} else db.carts;
    var customers := db.customers - {cid};
    ok := db.Commit(db.View().(orders := orders, carts := carts, customers := customers));
  }

  /** The restaurant case of deleteUserByEmail, lines 154-199. */
  method PurgeRestaurant(db: Store, rid: RestaurantId) returns (ok: bool)
    requires db.Valid() && rid in db.restaurants
    modifies db
    ensures (ok, db.View()) == (Integrity(RestaurantPurged(old(db.View()), rid)), Committed(old(db.View()), RestaurantPurged(old(db.View()), rid)))
    ensures db.Valid()
  {
    RestaurantPurgedCommits(db.View(), rid);
    var orders := UnlinkOrders(db.orders, AsRestaurant(rid));
    var doomed := set i | i in db.menu && db.menu[i].restaurant == Some(rid);
    orders := StripItems(orders, doomed);
    var menu := db.menu - doomed;
    var couriers := DisassociateCouriers(db.couriers, rid);
    var requests := db.requests - RequestsOf(db.requests, AsRestaurant(rid));
    var customers := RemoveFavorites(db.customers, rid);
    var restaurants := db.restaurants - {rid};
    ok := db.Commit(db.View().(orders := orders, menu := menu, couriers := couriers, requests := requests,
                               customers := customers, restaurants := restaurants));
  }

  /** The courier case of both deletions (AdminController lines 200-207, ProfileController lines 279-292). */
  method PurgeCourier(db: Store, kid: CourierId) returns (ok: bool)
    requires db.Valid() && kid in db.couriers
    modifies db
    ensures ok && db.View() == CourierPurged(old(db.View()), kid)
    ensures db.Valid()
  {
    CourierPurgedCommits(db.View(), kid);
    var orders := UnlinkOrders(db.orders, AsCourier(kid));
    var requests := db.requests - RequestsOf(db.requests, AsCourier(kid));
    var couriers := db.couriers - {kid};
    ok := db.Commit(db.View().(orders := orders, requests := requests, couriers := couriers));
  }
}
