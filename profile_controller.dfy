// controller/ProfileController.java: a signed-in user editing its own
// profile, a customer's favourite restaurants, and a user deleting its own
// account.
module ProfileController {
  import opened Domain
  import opened Persistence
  import opened Accounts
  import opened Cascades

  // ---------------------------------------------------------------------
  // updateProfile and apply*Updates (lines 61-110)
  // ---------------------------------------------------------------------

  datatype ProfileReply = ProfileUpdated | ProfileNotFound | ProfileClassCast
  {
    function Code(): int
    {
      match this
      case ProfileUpdated => 200
      case ProfileNotFound => 404
      case ProfileClassCast => 500
    }
  }

  const CustomerKeys: set<string> := {"name", "phone", "city", "district", "address"}
  const CourierKeys: set<string> := {"name", "phone"}
  const RestaurantKeys: set<string> := {"name", "phone", "city", "district", "address", "businessHoursStart", "businessHoursEnd"}

  /** Every listed key that is present survives the `(String)` cast: it holds a string or null. */
  predicate Castable(updates: map<string, Json>, keys: set<string>)
  {
    forall k :: k in keys && k in updates ==> updates[k].JString? || updates[k].JNull?
  }

  /** `if (updates.containsKey(key)) set((String) updates.get(key))` on a castable value. */
  function Column(current: string, updates: map<string, Json>, key: string): (r: string)
    ensures key !in updates ==> r == current
  {
    if key in updates && updates[key].JString? then updates[key].s else current
  }

  /** applyCustomerUpdates (lines 89-95). */
  function CustomerProfileUpdates(c: Customer, updates: map<string, Json>): Option<Customer>
  {
    if !Castable(updates, CustomerKeys) then None
    else Some(c.(user := c.user.(name := Column(c.user.name, updates, "name"), phone := Column(c.user.phone, updates, "phone")),
                 city := Column(c.city, updates, "city"),
                 district := Column(c.district, updates, "district"),
                 address := Column(c.address, updates, "address")))
  }

  /** applyCourierUpdates (lines 97-100). */
  function CourierProfileUpdates(k: Courier, updates: map<string, Json>): Option<Courier>
  {
    if !Castable(updates, CourierKeys) then None
    else Some(k.(user := k.user.(name := Column(k.user.name, updates, "name"), phone := Column(k.user.phone, updates, "phone"))))
  }

  /** applyRestaurantUpdates (lines 102-110). */
  function RestaurantProfileUpdates(r: Restaurant, updates: map<string, Json>): Option<Restaurant>
  {
    if !Castable(updates, RestaurantKeys) then None
    else Some(r.(user := r.user.(name := Column(r.user.name, updates, "name"), phone := Column(r.user.phone, updates, "phone")),
                 city := Column(r.city, updates, "city"),
                 district := Column(r.district, updates, "district"),
                 address := Column(r.address, updates, "address"),
                 businessHoursStart := Column(r.businessHoursStart, updates, "businessHoursStart"),
                 businessHoursEnd := Column(r.businessHoursEnd, updates, "businessHoursEnd")))
  }

  /**
   * A user cannot touch its own e-mail, role or account status, nor a
   * customer its favourites or a restaurant its approval, cuisine or open
   * flag, whatever keys it sends. A key holding neither a string nor null
   * fails the cast; a body with none of the listed keys changes nothing; a
   * string under a listed key is stored as sent.
   */
  lemma CustomerProfileUpdatesExact(c: Customer, updates: map<string, Json>)
    ensures CustomerProfileUpdates(c, updates).Some? <==> Castable(updates, CustomerKeys)
    ensures var r := CustomerProfileUpdates(c, updates);
      r.Some? ==>
        && r.value.customerId == c.customerId && r.value.favorites == c.favorites
        && r.value.user.email == c.user.email && r.value.user.role == c.user.role
        && r.value.user.accountStatus == c.user.accountStatus
        && ((forall k :: k in CustomerKeys ==> k !in updates) ==> r.value == c)
        && ("name" in updates && updates["name"].JString? ==> r.value.user.name == updates["name"].s)
        && ("address" in updates && updates["address"].JString? ==> r.value.address == updates["address"].s)
  {
    var r := CustomerProfileUpdates(c, updates);
    if r.Some? && forall k :: k in CustomerKeys ==> k !in updates {
      assert "name" !in updates && "phone" !in updates && "city" !in updates;
      assert "district" !in updates && "address" !in updates;
    }
  }

  lemma CourierProfileUpdatesExact(k: Courier, updates: map<string, Json>)
    ensures CourierProfileUpdates(k, updates).Some? <==> Castable(updates, CourierKeys)
    ensures var r := CourierProfileUpdates(k, updates);
      r.Some? ==>
        && r.value.courierId == k.courierId && r.value.restaurantOwner == k.restaurantOwner
        && r.value.user.email == k.user.email && r.value.user.role == k.user.role
        && r.value.user.accountStatus == k.user.accountStatus
        && ((forall key :: key in CourierKeys ==> key !in updates) ==> r.value == k)
        && ("phone" in updates && updates["phone"].JString? ==> r.value.user.phone == updates["phone"].s)
  {
    var r := CourierProfileUpdates(k, updates);
    if r.Some? && forall key :: key in CourierKeys ==> key !in updates {
      assert "name" !in updates && "phone" !in updates;
    }
  }

  lemma RestaurantProfileUpdatesExact(r: Restaurant, updates: map<string, Json>)
    ensures RestaurantProfileUpdates(r, updates).Some? <==> Castable(updates, RestaurantKeys)
    ensures var r' := RestaurantProfileUpdates(r, updates);
      r'.Some? ==>
        && r'.value.restaurantId == r.restaurantId && r'.value.approved == r.approved
        && r'.value.isOpen == r.isOpen && r'.value.cuisineType == r.cuisineType
        && r'.value.user.email == r.user.email && r'.value.user.role == r.user.role
        && r'.value.user.accountStatus == r.user.accountStatus
        && ((forall k :: k in RestaurantKeys ==> k !in updates) ==> r'.value == r)
        && ("businessHoursEnd" in updates && updates["businessHoursEnd"].JString? ==>
              r'.value.businessHoursEnd == updates["businessHoursEnd"].s)
  {
    var r' := RestaurantProfileUpdates(r, updates);
    if r'.Some? && forall k :: k in RestaurantKeys ==> k !in updates {
      assert "name" !in updates && "phone" !in updates && "city" !in updates && "district" !in updates;
      assert "address" !in updates && "businessHoursStart" !in updates && "businessHoursEnd" !in updates;
    }
  }

  /** updateProfile on a snapshot: the caller is looked up as a customer, then a courier, then a restaurant. */
  ghost function UpdateProfileSpec(w: World, email: string, updates: map<string, Json>): (res: (ProfileReply, World))
    ensures res.0 != ProfileUpdated ==> res.1 == w
  {
    CustomerByEmailFound(w, email);
    CourierByEmailFound(w, email);
    RestaurantByEmailFound(w, email);
    if CustomerByEmail(w, email).Some? then
      var c := CustomerByEmail(w, email).value;
      match CustomerProfileUpdates(w.customers[c], updates)
      case None => (ProfileClassCast, w)
      case Some(row) => (ProfileUpdated, w.(customers := w.customers[c := row]))
    else if CourierByEmail(w, email).Some? then
      var k := CourierByEmail(w, email).value;
      match CourierProfileUpdates(w.couriers[k], updates)
      case None => (ProfileClassCast, w)
      case Some(row) => (ProfileUpdated, w.(couriers := w.couriers[k := row]))
    else if RestaurantByEmail(w, email).Some? then
      var r := RestaurantByEmail(w, email).value;
      match RestaurantProfileUpdates(w.restaurants[r], updates)
      case None => (ProfileClassCast, w)
      case Some(row) => (ProfileUpdated, w.(restaurants := w.restaurants[r := row]))
    else (ProfileNotFound, w)
  }

  /** An admin, or anybody not in the customer, courier and restaurant tables, gets 404. */
  lemma UpdateProfileNotFound(w: World, email: string, updates: map<string, Json>)
    ensures UpdateProfileSpec(w, email, updates).0 == ProfileNotFound <==>
      && (forall c :: c in w.customers ==> w.customers[c].user.email != email)
      && (forall k :: k in w.couriers ==> w.couriers[k].user.email != email)
      && (forall r :: r in w.restaurants ==> w.restaurants[r].user.email != email)
  {
    CustomerByEmailFound(w, email);
    CourierByEmailFound(w, email);
    RestaurantByEmailFound(w, email);
  }

  /** A profile update keeps the database consistent: no e-mail and no reference changes. */
  lemma UpdateProfileConsistent(w: World, email: string, updates: map<string, Json>)
    requires Consistent(w)
    ensures Consistent(UpdateProfileSpec(w, email, updates).1)
  {
    CustomerByEmailFound(w, email);
    CourierByEmailFound(w, email);
    RestaurantByEmailFound(w, email);
    if CustomerByEmail(w, email).Some? {
      var c := CustomerByEmail(w, email).value;
      CustomerProfileUpdatesExact(w.customers[c], updates);
      if CustomerProfileUpdates(w.customers[c], updates).Some? {
        CustomerUpdateConsistent(w, c, CustomerProfileUpdates(w.customers[c], updates).value);
      }
    } else if CourierByEmail(w, email).Some? {
      var k := CourierByEmail(w, email).value;
      CourierProfileUpdatesExact(w.couriers[k], updates);
      if CourierProfileUpdates(w.couriers[k], updates).Some? {
        CourierUpdateConsistent(w, k, CourierProfileUpdates(w.couriers[k], updates).value);
      }
    } else if RestaurantByEmail(w, email).Some? {
      var r := RestaurantByEmail(w, email).value;
      RestaurantProfileUpdatesExact(w.restaurants[r], updates);
      if RestaurantProfileUpdates(w.restaurants[r], updates).Some? {
        RestaurantUpdateConsistent(w, r, RestaurantProfileUpdates(w.restaurants[r], updates).value);
      }
    }
  }

  /** ProfileController.updateProfile; the caller's e-mail is the authenticated name. */
  method UpdateProfile(db: Store, email: string, updates: map<string, Json>) returns (reply: ProfileReply)
    requires db.Valid()
    modifies db`customers, db`couriers, db`restaurants
    ensures (reply, db.View()) == UpdateProfileSpec(old(db.View()), email, updates)
    ensures db.Valid()
  {
    UpdateProfileConsistent(db.View(), email, updates);
    var c := FindCustomer(db, email);
    if c.Some? {
      var row := CustomerProfileUpdates(db.customers[c.value], updates);
      if row.None? {
        return ProfileClassCast;
      }
      db.customers := db.customers[c.value := row.value];
      return ProfileUpdated;
    }
    var k := FindCourier(db, email);
    if k.Some? {
      var row := CourierProfileUpdates(db.couriers[k.value], updates);
      if row.None? {
        return ProfileClassCast;
      }
      db.couriers := db.couriers[k.value := row.value];
      return ProfileUpdated;
    }
    var r := FindRestaurant(db, email);
    if r.Some? {
      var row := RestaurantProfileUpdates(db.restaurants[r.value], updates);
      if row.None? {
        return ProfileClassCast;
      }
      db.restaurants := db.restaurants[r.value := row.value];
      return ProfileUpdated;
    }
    reply := ProfileNotFound;
  }

  // ---------------------------------------------------------------------
  // Favourite restaurants (lines 112-186)
  // ---------------------------------------------------------------------

  /** The authority @PreAuthorize("hasRole('CUSTOMER')") asks for. */
  const CustomerAuthority: string := "ROLE_CUSTOMER"

  datatype FavoriteReply = Added | AlreadyFavorite | Removed | NotFavorite | Forbidden | CustomerOrRestaurantNotFound
  {
    function Code(): int
    {
      match this
      case Forbidden => 403
      case CustomerOrRestaurantNotFound => 400
      case _ => 200
    }
  }

  /** The favourites of the customer changed to `favorites`. */
  function WithFavorites(w: World, c: CustomerId, favorites: set<RestaurantId>): World
    requires c in w.customers
  {
    w.(customers := w.customers[c := w.customers[c].(favorites := favorites)])
  }

  /** addFavoriteRestaurant on a snapshot. */
  ghost function AddFavoriteSpec(w: World, authorities: set<string>, email: string, rid: RestaurantId): (res: (FavoriteReply, World))
    ensures res.0 != Added ==> res.1 == w
  {
    CustomerByEmailFound(w, email);
    if CustomerAuthority !in authorities then (Forbidden, w)
    else if CustomerByEmail(w, email).None? || rid !in w.restaurants then (CustomerOrRestaurantNotFound, w)
    else
      var c := CustomerByEmail(w, email).value;
      if rid in w.customers[c].favorites then (AlreadyFavorite, w)
      else (Added, WithFavorites(w, c, w.customers[c].favorites + {rid}))
  }

  /** removeFavoriteRestaurant on a snapshot. */
  ghost function RemoveFavoriteSpec(w: World, authorities: set<string>, email: string, rid: RestaurantId): (res: (FavoriteReply, World))
    ensures res.0 != Removed ==> res.1 == w
  {
    CustomerByEmailFound(w, email);
    if CustomerAuthority !in authorities then (Forbidden, w)
    else if CustomerByEmail(w, email).None? || rid !in w.restaurants then (CustomerOrRestaurantNotFound, w)
    else
      var c := CustomerByEmail(w, email).value;
      if rid !in w.customers[c].favorites then (NotFavorite, w)
      else (Removed, WithFavorites(w, c, w.customers[c].favorites - {rid}))
  }

  /**
   * Favourites are a set: after a successful add the restaurant is a
   * favourite of the caller and only that customer's favourites grew by it;
   * adding it again answers "already in favorites" and changes nothing.
   */
  lemma AddFavoriteExact(w: World, authorities: set<string>, email: string, rid: RestaurantId)
    requires CustomerEmailsUnique(w.customers)
    ensures var (r, w') := AddFavoriteSpec(w, authorities, email, rid);
      (r == Added || r == AlreadyFavorite) ==>
        && CustomerByEmail(w, email).Some?
        && var c := CustomerByEmail(w, email).value;
           && rid in w.restaurants
           && w' == WithFavorites(w, c, w.customers[c].favorites + {rid})
           && AddFavoriteSpec(w', authorities, email, rid) == (AlreadyFavorite, w')
  {
    CustomerByEmailFound(w, email);
    var (r, w') := AddFavoriteSpec(w, authorities, email, rid);
    if r == Added || r == AlreadyFavorite {
      var c := CustomerByEmail(w, email).value;
      if r == AlreadyFavorite {
        assert w.customers[c].favorites + {rid} == w.customers[c].favorites;
        assert w.customers[c].(favorites := w.customers[c].favorites) == w.customers[c];
        assert w.customers[c := w.customers[c]] == w.customers;
      }
      assert w'.customers.Keys == w.customers.Keys;
      CustomerEmailUnchanged(w, c, w.customers[c].favorites + {rid}, email);
    }
  }

  /** Rewriting a customer's favourites leaves the lookup by e-mail where it was. */
  lemma CustomerEmailUnchanged(w: World, c: CustomerId, favorites: set<RestaurantId>, email: string)
    requires CustomerEmailsUnique(w.customers)
    requires c in w.customers && CustomerByEmail(w, email) == Some(c)
    ensures CustomerByEmail(WithFavorites(w, c, favorites), email) == Some(c)
  {
    var w' := WithFavorites(w, c, favorites);
    CustomerByEmailFound(w, email);
    CustomerByEmailFound(w', email);
    assert w'.customers[c].user.email == email;
  }

  /**
   * Removing undoes adding: a restaurant added as a new favourite and then
   * removed leaves the database exactly as it was, and afterwards it is not
   * a favourite.
   */
  lemma AddThenRemove(w: World, authorities: set<string>, email: string, rid: RestaurantId)
    requires CustomerEmailsUnique(w.customers)
    requires AddFavoriteSpec(w, authorities, email, rid).0 == Added
    ensures var w1 := AddFavoriteSpec(w, authorities, email, rid).1;
      RemoveFavoriteSpec(w1, authorities, email, rid) == (Removed, w)
  {
    CustomerByEmailFound(w, email);
    var c := CustomerByEmail(w, email).value;
    var w1 := AddFavoriteSpec(w, authorities, email, rid).1;
    CustomerEmailUnchanged(w, c, w.customers[c].favorites + {rid}, email);
    assert w.customers[c].favorites + {rid} - {rid} == w.customers[c].favorites;
    assert WithFavorites(w1, c, w1.customers[c].favorites - {rid}).customers == w.customers;
  }

  /** After a successful remove the restaurant is no favourite of the caller, and nothing else changed. */
  lemma RemoveFavoriteExact(w: World, authorities: set<string>, email: string, rid: RestaurantId)
    ensures var (r, w') := RemoveFavoriteSpec(w, authorities, email, rid);
      r == Removed ==>
        && CustomerByEmail(w, email).Some?
        && var c := CustomerByEmail(w, email).value;
           && rid in w.customers[c].favorites
           && w' == WithFavorites(w, c, w.customers[c].favorites - {rid})
           && rid !in w'.customers[c].favorites
  {
  }

  /** Changing favourites keeps the database consistent: an added favourite is an existing restaurant. */
  lemma FavoritesConsistent(w: World, c: CustomerId, favorites: set<RestaurantId>)
    requires Consistent(w) && c in w.customers && favorites <= w.restaurants.Keys
    ensures Consistent(WithFavorites(w, c, favorites))
  {
    var w' := WithFavorites(w, c, favorites);
    assert w'.customers.Keys == w.customers.Keys;
    assert CustomerEmailsUnique(w'.customers);
    assert FavoriteRefs(w'.customers, w'.restaurants);
    assert CartRefs(w'.carts, w'.menu, w'.customers);
    assert OrderRefs(w'.orders, w'.menu, w'.customers, w'.restaurants, w'.couriers);
  }

  /** ProfileController.addFavoriteRestaurant; the caller's authorities and e-mail are parameters. */
  method AddFavorite(db: Store, authorities: set<string>, email: string, rid: RestaurantId) returns (reply: FavoriteReply)
    requires db.Valid()
    modifies db`customers
    ensures (reply, db.View()) == AddFavoriteSpec(old(db.View()), authorities, email, rid)
    ensures db.Valid()
  {
    if CustomerAuthority !in authorities {
      return Forbidden;
    }
    var c := FindCustomer(db, email);
    if c.None? || rid !in db.restaurants {
      return CustomerOrRestaurantNotFound;
    }
    CustomerByEmailFound(db.View(), email);
    var favorites := db.customers[c.value].favorites;
    if rid in favorites {
      return AlreadyFavorite;
    }
    assert FavoriteRefs(db.customers, db.restaurants);
    FavoritesConsistent(db.View(), c.value, favorites + {rid});
    db.customers := db.customers[c.value := db.customers[c.value].(favorites := favorites + {rid})];
    reply := Added;
  }

  /** ProfileController.removeFavoriteRestaurant. */
  method RemoveFavorite(db: Store, authorities: set<string>, email: string, rid: RestaurantId) returns (reply: FavoriteReply)
    requires db.Valid()
    modifies db`customers
    ensures (reply, db.View()) == RemoveFavoriteSpec(old(db.View()), authorities, email, rid)
    ensures db.Valid()
  {
    if CustomerAuthority !in authorities {
      return Forbidden;
    }
    var c := FindCustomer(db, email);
    if c.None? || rid !in db.restaurants {
      return CustomerOrRestaurantNotFound;
    }
    CustomerByEmailFound(db.View(), email);
    var favorites := db.customers[c.value].favorites;
    if rid !in favorites {
      return NotFavorite;
    }
    assert FavoriteRefs(db.customers, db.restaurants);
    FavoritesConsistent(db.View(), c.value, favorites - {rid});
    db.customers := db.customers[c.value := db.customers[c.value].(favorites := favorites - {rid})];
    reply := Removed;
  }

  // ---------------------------------------------------------------------
  // deleteAccount (lines 188-296)
  // ---------------------------------------------------------------------

  /** The statuses after which an order no longer blocks the deletion (line 194). */
  const ProfileFinals: set<string> := {"DELIVERED", "CANCELLED"}

  datatype DeleteAccountError = AccountNotFound | ActiveOrdersLeft(active: set<OrderId>) | ConstraintViolation
  {
    function Code(): int
    {
      match this
      case AccountNotFound => 404
      case ActiveOrdersLeft(_) => 409
      case ConstraintViolation => 500
    }
  }

  /** Lines 245-253: the customer's cart and row; its orders are left as they are. */
  function SelfCustomerPurged(w: World, cid: CustomerId): World
  {
    w.(carts := WithoutCart(w.carts, cid), customers := w.customers - {cid})
  }

  /** Lines 254-278: couriers released, menu items and requests deleted, favourites cleared; orders are left as they are. */
  function SelfRestaurantPurged(w: World, rid: RestaurantId): World
  {
    w.(couriers := Disassociated(w.couriers, rid),
       menu := w.menu - ItemsOf(w.menu, rid),
       requests := w.requests - RequestsOf(w.requests, AsRestaurant(rid)),
       customers := Unfavorited(w.customers, rid),
       restaurants := w.restaurants - {rid})
  }

  function SelfPurged(w: World, p: Party): World
  {
    match p
    case AsCustomer(c) => SelfCustomerPurged(w, c)
    case AsRestaurant(r) => SelfRestaurantPurged(w, r)
    case AsCourier(k) => CourierPurged(w, k)
  }

  /** The active-order check of the found account, then its clean-up and the commit. */
  function AttemptDelete(w: World, p: Party): (res: (Result<(), DeleteAccountError>, World))
    ensures res.0.Err? ==> res.1 == w
  {
    var active := ActiveOrders(w.orders, p, ProfileFinals);
    if active != {} then (Err(ActiveOrdersLeft(active)), w)
    else
      var w' := SelfPurged(w, p);
      if Integrity(w') then (Ok(()), w') else (Err(ConstraintViolation), w)
  }

  /** The account of the e-mail, looked up as a customer, then a restaurant, then a courier (lines 200-231). */
  ghost function SelfAccount(w: World, email: string): (p: Option<Party>)
    ensures p.Some? ==> match p.value
      case AsCustomer(c) => c in w.customers
      case AsRestaurant(r) => r in w.restaurants
      case AsCourier(k) => k in w.couriers
  {
    CustomerByEmailFound(w, email);
    CourierByEmailFound(w, email);
    RestaurantByEmailFound(w, email);
    if CustomerByEmail(w, email).Some? then Some(AsCustomer(CustomerByEmail(w, email).value))
    else if RestaurantByEmail(w, email).Some? then Some(AsRestaurant(RestaurantByEmail(w, email).value))
    else if CourierByEmail(w, email).Some? then Some(AsCourier(CourierByEmail(w, email).value))
    else None
  }

  /** deleteAccount on a snapshot. */
  ghost function DeleteAccountSpec(w: World, email: string): (res: (Result<(), DeleteAccountError>, World))
    ensures res.0.Err? ==> res.1 == w
  {
    match SelfAccount(w, email)
    case None => (Err(AccountNotFound), w)
    case Some(p) => AttemptDelete(w, p)
  }

  /**
   * Under the schema's foreign keys a customer can delete its own account
   * only if it never ordered: its orders are not unlinked, so a delivered or
   * cancelled order still points at the row and the flush refuses.
   */
  lemma SelfCustomerDeletion(w: World, cid: CustomerId)
    requires Consistent(w) && cid in w.customers
    ensures AttemptDelete(w, AsCustomer(cid)).0.Ok? <==> OrdersOf(w.orders, AsCustomer(cid)) == {}
    ensures Integrity(SelfCustomerPurged(w, cid)) ==> Consistent(SelfCustomerPurged(w, cid))
  {
    if OrdersOf(w.orders, AsCustomer(cid)) == {} {
      SelfCustomerCommits(w, cid);
    } else {
      SelfCustomerBlocked(w, cid);
    }
    var w' := SelfCustomerPurged(w, cid);
    if Integrity(w') {
      assert Shrinks(w, w');
      ShrinkConsistent(w, w');
    }
  }

  /** An order of the customer keeps pointing at the deleted row. */
  lemma SelfCustomerBlocked(w: World, cid: CustomerId)
    requires Consistent(w) && cid in w.customers && OrdersOf(w.orders, AsCustomer(cid)) != {}
    ensures !Integrity(SelfCustomerPurged(w, cid))
  {
    var w' := SelfCustomerPurged(w, cid);
    var o :| o in OrdersOf(w.orders, AsCustomer(cid));
    assert !OrderRefsOk(w'.orders[o], w'.menu, w'.customers, w'.restaurants, w'.couriers);
  }

  lemma SelfCustomerCommits(w: World, cid: CustomerId)
    requires Consistent(w) && cid in w.customers && OrdersOf(w.orders, AsCustomer(cid)) == {}
    ensures Integrity(SelfCustomerPurged(w, cid))
  {
    var w' := SelfCustomerPurged(w, cid);
    forall o | o in w'.orders
      ensures OrderRefsOk(w'.orders[o], w'.menu, w'.customers, w'.restaurants, w'.couriers)
    {
      assert o !in OrdersOf(w.orders, AsCustomer(cid));
      assert OrderRefsOk(w.orders[o], w.menu, w.customers, w.restaurants, w.couriers);
    }
    assert CartRefs(w'.carts, w'.menu, w'.customers);
    assert FavoriteRefs(w'.customers, w'.restaurants);
  }

  /**
   * A courier deletes its own account exactly when it has no order outside
   * DELIVERED and CANCELLED; it is then unassigned from its orders and its
   * requests are deleted, and nothing can refuse the commit (lines 279-292).
   */
  lemma SelfCourierDeletion(w: World, kid: CourierId)
    requires Consistent(w) && kid in w.couriers
    ensures AttemptDelete(w, AsCourier(kid)).0.Ok? <==> ActiveOrders(w.orders, AsCourier(kid), ProfileFinals) == {}
    ensures AttemptDelete(w, AsCourier(kid)).0.Ok? ==>
      AttemptDelete(w, AsCourier(kid)).1 == CourierPurged(w, kid) && Consistent(CourierPurged(w, kid))
  {
    CourierPurgedCommits(w, kid);
  }

  /** No order left after the clean-up refers to the restaurant or holds one of its items. */
  predicate RestaurantForgotten(w: World, rid: RestaurantId)
  {
    forall o :: o in w.orders ==>
      w.orders[o].restaurant != Some(rid) && HoldsNone(w.orders[o].items, ItemsOf(w.menu, rid))
  }

  /**
   * A restaurant can delete its own account exactly when no order names it
   * or holds one of its menu items and no cart holds one of them: the
   * clean-up deletes the items but touches neither orders nor carts.
   */
  lemma SelfRestaurantDeletionCommits(w: World, rid: RestaurantId)
    requires Consistent(w) && rid in w.restaurants
    ensures Integrity(SelfRestaurantPurged(w, rid)) <==>
      RestaurantForgotten(w, rid) && forall c :: c in w.carts ==> HoldsNone(w.carts[c].items, ItemsOf(w.menu, rid))
    ensures Integrity(SelfRestaurantPurged(w, rid)) ==> Consistent(SelfRestaurantPurged(w, rid))
  {
    var w' := SelfRestaurantPurged(w, rid);
    var doomed := ItemsOf(w.menu, rid);
    if RestaurantForgotten(w, rid) && forall c :: c in w.carts ==> HoldsNone(w.carts[c].items, doomed) {
      SelfRestaurantRefs(w, rid);
    } else {
      SelfRestaurantBlocked(w, rid);
    }
    if Integrity(w') {
      SelfRestaurantShrinks(w, rid);
      ShrinkConsistent(w, w');
    }
  }

  lemma SelfRestaurantShrinks(w: World, rid: RestaurantId)
    ensures Shrinks(w, SelfRestaurantPurged(w, rid))
  {
  }

  lemma SelfRestaurantBlocked(w: World, rid: RestaurantId)
    requires !(RestaurantForgotten(w, rid) && forall c :: c in w.carts ==> HoldsNone(w.carts[c].items, ItemsOf(w.menu, rid)))
    ensures !Integrity(SelfRestaurantPurged(w, rid))
  {
    var w' := SelfRestaurantPurged(w, rid);
    var doomed := ItemsOf(w.menu, rid);
    if !RestaurantForgotten(w, rid) {
      var o :| o in w.orders && !(w.orders[o].restaurant != Some(rid) && HoldsNone(w.orders[o].items, doomed));
      if w.orders[o].restaurant == Some(rid) {
        assert !OrderRefsOk(w'.orders[o], w'.menu, w'.customers, w'.restaurants, w'.couriers);
      } else {
        var i :| i in w.orders[o].items && i in doomed;
        assert !OrderRefsOk(w'.orders[o], w'.menu, w'.customers, w'.restaurants, w'.couriers);
      }
    } else {
      var c :| c in w.carts && !HoldsNone(w.carts[c].items, doomed);
      var i :| i in w.carts[c].items && i in doomed;
      assert !CartRefs(w'.carts, w'.menu, w'.customers);
    }
  }

  lemma SelfRestaurantRefs(w: World, rid: RestaurantId)
    requires Consistent(w) && rid in w.restaurants
    requires RestaurantForgotten(w, rid) && forall c :: c in w.carts ==> HoldsNone(w.carts[c].items, ItemsOf(w.menu, rid))
    ensures Integrity(SelfRestaurantPurged(w, rid))
  {
    var w' := SelfRestaurantPurged(w, rid);
    var doomed := ItemsOf(w.menu, rid);
    assert MenuRefs(w'.menu, w'.restaurants);
    assert FavoriteRefs(w'.customers, w'.restaurants);
    assert CourierRefs(w'.couriers, w'.restaurants);
    assert CartRefs(w'.carts, w'.menu, w'.customers) by {
      forall c, i | c in w.carts && i in w.carts[c].items
        ensures i in w'.menu
      {
        assert HoldsNone(w.carts[c].items, doomed);
      }
    }
    SelfRestaurantOrderRefs(w, rid);
    assert RequestRefs(w'.requests, w'.couriers, w'.restaurants, w'.nextRequestId);
  }

  lemma SelfRestaurantOrderRefs(w: World, rid: RestaurantId)
    requires Consistent(w) && rid in w.restaurants && RestaurantForgotten(w, rid)
    ensures var w' := SelfRestaurantPurged(w, rid);
      OrderRefs(w'.orders, w'.menu, w'.customers, w'.restaurants, w'.couriers)
  {
    var w' := SelfRestaurantPurged(w, rid);
    var doomed := ItemsOf(w.menu, rid);
    forall o | o in w'.orders
      ensures OrderRefsOk(w'.orders[o], w'.menu, w'.customers, w'.restaurants, w'.couriers)
    {
      assert OrderRefsOk(w.orders[o], w.menu, w.customers, w.restaurants, w.couriers);
      forall i | i in w.orders[o].items
        ensures i in w'.menu
      {
        assert HoldsNone(w.orders[o].items, doomed);
      }
    }
  }

  /**
   * The profile deletion is stricter than the admin's: an order cancelled by
   * the customer blocks it, while the admin deletion treats it as final.
   */
  lemma ProfileStricterThanAdmin(orders: map<OrderId, Order>, p: Party, o: OrderId)
    requires o in orders && Involves(orders[o], p) && orders[o].status == CancelledByCustomer
    ensures o in ActiveOrders(orders, p, ProfileFinals)
    ensures o !in ActiveOrders(orders, p, {"DELIVERED", "CANCELLED", "CANCELLED_BY_CUSTOMER"})
    ensures ActiveOrders(orders, p, {"DELIVERED", "CANCELLED", "CANCELLED_BY_CUSTOMER"}) <= ActiveOrders(orders, p, ProfileFinals)
  {
    ActiveOrdersAntitone(orders, p, ProfileFinals, {"DELIVERED", "CANCELLED", "CANCELLED_BY_CUSTOMER"});
  }

  /** A deletion keeps the database consistent, whatever its outcome. */
  lemma DeleteAccountConsistent(w: World, email: string)
    requires Consistent(w)
    ensures Consistent(DeleteAccountSpec(w, email).1)
  {
    match SelfAccount(w, email)
    case None =>
    case Some(p) =>
      match p
      case AsCustomer(c) => SelfCustomerDeletion(w, c);
      case AsRestaurant(r) => SelfRestaurantDeletionCommits(w, r);
      case AsCourier(k) => CourierPurgedCommits(w, k);
  }

  /** ProfileController.deleteAccount; the caller's e-mail is the authenticated name. */
  method DeleteAccount(db: Store, email: string) returns (r: Result<(), DeleteAccountError>)
    requires db.Valid()
    modifies db
    ensures (r, db.View()) == DeleteAccountSpec(old(db.View()), email)
    ensures db.Valid()
  {
    var party: Party;
    var c := FindCustomer(db, email);
    if c.Some? {
      party := AsCustomer(c.value);
    } else {
      var ro := FindRestaurant(db, email);
      if ro.Some? {
        party := AsRestaurant(ro.value);
      } else {
        var k := FindCourier(db, email);
        if k.None? {
          return Err(AccountNotFound);
        }
        party := AsCourier(k.value);
      }
    }
    assert SelfAccount(db.View(), email) == Some(party);
    var active := ActiveOrders(db.orders, party, ProfileFinals);
    if active != {} {
      return Err(ActiveOrdersLeft(active));
    }
    var ok := PurgeSelf(db, party);
    r := if ok then Ok(()) else Err(ConstraintViolation);
  }

  /** The switch at lines 244-293 and the commit of the transaction. */
  method PurgeSelf(db: Store, p: Party) returns (ok: bool)
    requires db.Valid()
    requires match p
      case AsCustomer(c) => c in db.customers
      case AsRestaurant(r) => r in db.restaurants
      case AsCourier(k) => k in db.couriers
    modifies db
    ensures ok == Integrity(SelfPurged(old(db.View()), p))
    ensures db.View() == if ok then SelfPurged(old(db.View()), p) else old(db.View())
    ensures db.Valid()
  {
    match p
    case AsCustomer(cid) =>
      SelfCustomerDeletion(db.View(), cid);
      var carts := if cid in db.carts && db.carts[cid].customer == Some(cid) then db.carts - {cid} else db.carts;
      ok := db.Commit(db.View().(carts := carts, customers := db.customers - {cid}));
    case AsRestaurant(rid) =>
      SelfRestaurantDeletionCommits(db.View(), rid);
      var couriers := DisassociateCouriers(db.couriers, rid);
      var doomed := set i | i in db.menu && db.menu[i].restaurant == Some(rid);
      var requests := db.requests - RequestsOf(db.requests, AsRestaurant(rid));
      var customers := RemoveFavorites(db.customers, rid);
      ok := db.Commit(db.View().(couriers := couriers, menu := db.menu - doomed, requests := requests,
                                 customers := customers, restaurants := db.restaurants - {rid}));
    case AsCourier(k) =>
      ok := PurgeCourier(db, k);
  }
}
