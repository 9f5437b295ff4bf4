// The user accounts the admin and profile controllers act on: finding a user
// by e-mail across the four user tables (UserDetailsServiceImpl.getUserByEmail),
// writing its shared columns back (saveUser), and the order queries the
// deletion endpoints run before they delete anything.
module Accounts {
  import opened Domain
  import opened Persistence

  /** Which table a user row lives in: the Java subclass of User it is loaded as. */
  datatype UserRef =
    | CustomerUser(customerId: CustomerId)
    | CourierUser(courierId: CourierId)
    | RestaurantUser(restaurantId: RestaurantId)
    | AdminUser(adminId: AdminId)

  predicate Exists(w: World, u: UserRef)
  {
    match u
    case CustomerUser(c) => c in w.customers
    case CourierUser(k) => k in w.couriers
    case RestaurantUser(r) => r in w.restaurants
    case AdminUser(a) => a in w.admins
  }

  /** The User columns of the row. */
  function ProfileOf(w: World, u: UserRef): Profile
    requires Exists(w, u)
  {
    match u
    case CustomerUser(c) => w.customers[c].user
    case CourierUser(k) => w.couriers[k].user
    case RestaurantUser(r) => w.restaurants[r].user
    case AdminUser(a) => w.admins[a].user
  }

  /** userService.saveUser: the row's User columns replaced, in the row's own table. */
  function WithProfile(w: World, u: UserRef, p: Profile): (w': World)
    requires Exists(w, u)
    ensures Exists(w', u) && ProfileOf(w', u) == p
    ensures w' == w.(customers := w'.customers, couriers := w'.couriers, restaurants := w'.restaurants, admins := w'.admins)
    ensures p == ProfileOf(w, u) ==> w' == w
  {
    match u
    case CustomerUser(c) => w.(customers := w.customers[c := w.customers[c].(user := p)])
    case CourierUser(k) => w.(couriers := w.couriers[k := w.couriers[k].(user := p)])
    case RestaurantUser(r) => w.(restaurants := w.restaurants[r := w.restaurants[r].(user := p)])
    case AdminUser(a) => w.(admins := w.admins[a := w.admins[a].(user := p)])
  }

  /** userService.saveUser: the repository of the row's own table stores it. */
  method SaveUser(db: Store, u: UserRef, p: Profile)
    requires Exists(db.View(), u)
    modifies db`customers, db`couriers, db`restaurants, db`admins
    ensures db.View() == WithProfile(old(db.View()), u, p)
  {
    match u
    case CustomerUser(c) => db.customers := db.customers[c := db.customers[c].(user := p)];
    case CourierUser(k) => db.couriers := db.couriers[k := db.couriers[k].(user := p)];
    case RestaurantUser(r) => db.restaurants := db.restaurants[r := db.restaurants[r].(user := p)];
    case AdminUser(a) => db.admins := db.admins[a := db.admins[a].(user := p)];
  }

  /** Writing back a profile with the same e-mail keeps the database consistent. */
  lemma WithProfileConsistent(w: World, u: UserRef, p: Profile)
    requires Consistent(w) && Exists(w, u) && p.email == ProfileOf(w, u).email
    ensures Consistent(WithProfile(w, u, p))
  {
    match u
    case CustomerUser(c) => CustomerUpdateConsistent(w, c, w.customers[c].(user := p));
    case CourierUser(k) => CourierUpdateConsistent(w, k, w.couriers[k].(user := p));
    case RestaurantUser(r) => RestaurantUpdateConsistent(w, r, w.restaurants[r].(user := p));
    case AdminUser(a) => AdminUpdateConsistent(w, a, w.admins[a].(user := p));
  }

  /** getUserByEmail: the customers are searched first, then the couriers, the restaurants and the admins. */
  ghost function UserByEmail(w: World, email: string): (u: Option<UserRef>)
    ensures u.Some? ==> Exists(w, u.value) && ProfileOf(w, u.value).email == email
  {
    CustomerByEmailFound(w, email);
    CourierByEmailFound(w, email);
    RestaurantByEmailFound(w, email);
    AdminByEmailFound(w, email);
    if CustomerByEmail(w, email).Some? then Some(CustomerUser(CustomerByEmail(w, email).value))
    else if CourierByEmail(w, email).Some? then Some(CourierUser(CourierByEmail(w, email).value))
    else if RestaurantByEmail(w, email).Some? then Some(RestaurantUser(RestaurantByEmail(w, email).value))
    else if AdminByEmail(w, email).Some? then Some(AdminUser(AdminByEmail(w, email).value))
    else None
  }

  /**
   * The lookup finds nobody only when no table has the e-mail, and it
   * returns a row of a later table only when no earlier table has it: an
   * e-mail used by both a customer and a restaurant is the customer's.
   */
  lemma UserByEmailPriority(w: World, email: string)
    ensures UserByEmail(w, email).None? <==>
      && (forall c :: c in w.customers ==> w.customers[c].user.email != email)
      && (forall k :: k in w.couriers ==> w.couriers[k].user.email != email)
      && (forall r :: r in w.restaurants ==> w.restaurants[r].user.email != email)
      && (forall a :: a in w.admins ==> w.admins[a].user.email != email)
    ensures UserByEmail(w, email).Some? && !UserByEmail(w, email).value.CustomerUser? ==>
      forall c :: c in w.customers ==> w.customers[c].user.email != email
    ensures UserByEmail(w, email).Some? && (UserByEmail(w, email).value.RestaurantUser? || UserByEmail(w, email).value.AdminUser?) ==>
      forall k :: k in w.couriers ==> w.couriers[k].user.email != email
    ensures UserByEmail(w, email).Some? && UserByEmail(w, email).value.AdminUser? ==>
      forall r :: r in w.restaurants ==> w.restaurants[r].user.email != email
  {
    CustomerByEmailFound(w, email);
    CourierByEmailFound(w, email);
    RestaurantByEmailFound(w, email);
    AdminByEmailFound(w, email);
  }

  /** UserDetailsServiceImpl.getUserByEmail. */
  method FindUser(db: Store, email: string) returns (u: Option<UserRef>)
    requires db.Valid()
    ensures u == UserByEmail(db.View(), email)
  {
    var c := FindCustomer(db, email);
    if c.Some? {
      return Some(CustomerUser(c.value));
    }
    var k := FindCourier(db, email);
    if k.Some? {
      return Some(CourierUser(k.value));
    }
    var r := FindRestaurant(db, email);
    if r.Some? {
      return Some(RestaurantUser(r.value));
    }
    var a := FindAdmin(db, email);
    if a.Some? {
      return Some(AdminUser(a.value));
    }
    u := None;
  }

  // ---------------------------------------------------------------------
  // Orders of an account
  // ---------------------------------------------------------------------

  /** The reference an order holds to an account: its customer, restaurant or courier. */
  datatype Party = AsCustomer(id: string) | AsRestaurant(id: string) | AsCourier(id: string)

  predicate Involves(o: Order, p: Party)
  {
    match p
    case AsCustomer(c) => o.customer == Some(c)
    case AsRestaurant(r) => o.restaurant == Some(r)
    case AsCourier(k) => o.courier == Some(k)
  }

  /** orderRepository.findByCustomerCustomerId / findByRestaurantRestaurantId / findByCourierId. */
  function OrdersOf(orders: map<OrderId, Order>, p: Party): set<OrderId>
  {
    set o | o in orders && Involves(orders[o], p)
  }

  /** The ...AndOrderStatusNotIn(id, finals) queries: the party's orders whose stored status is not a final one. */
  function ActiveOrders(orders: map<OrderId, Order>, p: Party, finals: set<string>): (r: set<OrderId>)
    ensures r <= OrdersOf(orders, p)
  {
    set o | o in orders && Involves(orders[o], p) && orders[o].status.Name() !in finals
  }

  /**
   * With fewer final statuses, more orders are active: a party blocked
   * under the larger set of final statuses is blocked under the smaller.
   */
  lemma ActiveOrdersAntitone(orders: map<OrderId, Order>, p: Party, f1: set<string>, f2: set<string>)
    requires f1 <= f2
    ensures ActiveOrders(orders, p, f2) <= ActiveOrders(orders, p, f1)
  {
  }

  /** The order with its reference to the party set to null. */
  function Unlink(o: Order, p: Party): (r: Order)
    ensures !Involves(r, p)
  {
    match p
    case AsCustomer(_) => o.(customer := None)
    case AsRestaurant(_) => o.(restaurant := None)
    case AsCourier(_) => o.(courier := None)
  }
}
