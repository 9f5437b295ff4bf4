// controller/AdminController.java: deleting a user account with its
// clean-up, editing a user's columns and status, cancelling a restaurant's
// open orders, and approving a restaurant.
module AdminController {
  import opened Domain
  import opened Persistence
  import opened Accounts
  import opened Cascades

  // ---------------------------------------------------------------------
  // deleteUserByEmail (lines 67-216)
  // ---------------------------------------------------------------------

  /** The statuses after which an order no longer blocks a deletion (lines 92-97). */
  const AdminFinals: set<string> := {"DELIVERED", "CANCELLED", "CANCELLED_BY_CUSTOMER"}

  datatype DeleteError =
    | SelfDeletion          // the calling admin's own e-mail
    | UserNotFound
    | HasActiveOrders(active: set<OrderId>)
    | AdminAccount          // role ADMIN
    | ClassCast             // the role string names another table than the row's
    | UnknownRole
    | ConstraintViolation   // the flush refused: a foreign key still names a deleted row
  {
    function Code(): int
    {
      match this
      case SelfDeletion => 403
      case UserNotFound => 404
      case HasActiveOrders(_) => 409
      case AdminAccount => 403
      case ClassCast => 500
      case UnknownRole => 500
      case ConstraintViolation => 500
    }
  }

  /** The role string each deletable account carries, upper-cased. */
  function RoleOf(p: Party): string
  {
    match p
    case AsCustomer(_) => "CUSTOMER"
    case AsRestaurant(_) => "RESTAURANT_OWNER"
    case AsCourier(_) => "COURIER"
  }

  /** The account a row is, as orders refer to it; admins are never referred to. */
  function PartyOf(u: UserRef): Option<Party>
  {
    match u
    case CustomerUser(c) => Some(AsCustomer(c))
    case RestaurantUser(r) => Some(AsRestaurant(r))
    case CourierUser(k) => Some(AsCourier(k))
    case AdminUser(_) => None
  }

  /** The clean-up of the switch at lines 141-212 for each kind of account. */
  function PurgedFor(w: World, p: Party): World
  {
    match p
    case AsCustomer(c) => CustomerPurged(w, c)
    case AsRestaurant(r) => RestaurantPurged(w, r)
    case AsCourier(k) => CourierPurged(w, k)
  }

  /** The active-order check, then the clean-up and its commit. */
  function Guarded(w: World, p: Party): (res: (Result<(), DeleteError>, World))
    ensures res.0.Err? ==> res.1 == w
  {
    var active := ActiveOrders(w.orders, p, AdminFinals);
    if active != {} then (Err(HasActiveOrders(active)), w)
    else
      var w' := PurgedFor(w, p);
      if Integrity(w') then (Ok(()), w') else (Err(ConstraintViolation), w)
  }

  /**
   * deleteUserByEmail on a snapshot. `principal` is the name of the calling
   * admin's authentication, absent when there is none. The casts at lines
   * 101, 109 and 117 follow the role string, so a row whose role names
   * another table fails with a ClassCastException.
   */
  ghost function DeleteUserSpec(w: World, principal: Option<string>, email: string): (res: (Result<(), DeleteError>, World))
    ensures res.0.Err? ==> res.1 == w
  {
    if principal.Some? && EqualsIgnoreCase(principal.value, email) then (Err(SelfDeletion), w)
    else match UserByEmail(w, email)
      case None => (Err(UserNotFound), w)
      case Some(u) =>
        var role := Upper(ProfileOf(w, u).role);
        if role == "CUSTOMER" || role == "RESTAURANT_OWNER" || role == "COURIER" then
          if PartyOf(u).None? || RoleOf(PartyOf(u).value) != role then (Err(ClassCast), w)
          else Guarded(w, PartyOf(u).value)
        else if role == "ADMIN" then (Err(AdminAccount), w)
        else (Err(UnknownRole), w)
  }

  /**
   * A deletion succeeds only for a user other than the caller, found by
   * e-mail, whose role string is CUSTOMER, RESTAURANT_OWNER or COURIER and
   * matches its table, with no order outside the final statuses; the
   * database is then exactly the clean-up of that account.
   */
  lemma DeleteUserOk(w: World, principal: Option<string>, email: string)
    ensures DeleteUserSpec(w, principal, email).0.Ok? ==>
      && !(principal.Some? && EqualsIgnoreCase(principal.value, email))
      && UserByEmail(w, email).Some?
      && var u := UserByEmail(w, email).value;
         && PartyOf(u).Some?
         && Upper(ProfileOf(w, u).role) == RoleOf(PartyOf(u).value)
         && ActiveOrders(w.orders, PartyOf(u).value, AdminFinals) == {}
         && DeleteUserSpec(w, principal, email).1 == PurgedFor(w, PartyOf(u).value)
  {
  }

  /**
   * The converse: every such user is deleted. A customer or a courier always
   * is; a restaurant is exactly when no cart still holds one of its menu
   * items, and otherwise the flush refuses with nothing deleted.
   */
  lemma DeleteUserEligible(w: World, principal: Option<string>, email: string)
    requires Consistent(w)
    requires !(principal.Some? && EqualsIgnoreCase(principal.value, email))
    requires UserByEmail(w, email).Some?
    requires var u := UserByEmail(w, email).value;
      && PartyOf(u).Some?
      && Upper(ProfileOf(w, u).role) == RoleOf(PartyOf(u).value)
      && ActiveOrders(w.orders, PartyOf(u).value, AdminFinals) == {}
    ensures var u := UserByEmail(w, email).value;
      DeleteUserSpec(w, principal, email).0.Ok? <==>
        (u.RestaurantUser? ==> forall c :: c in w.carts ==> HoldsNone(w.carts[c].items, ItemsOf(w.menu, u.restaurantId)))
    ensures var u := UserByEmail(w, email).value;
      DeleteUserSpec(w, principal, email) ==
        if DeleteUserSpec(w, principal, email).0.Ok? then (Ok(()), PurgedFor(w, PartyOf(u).value))
        else (Err(ConstraintViolation), w)
  {
    var u := UserByEmail(w, email).value;
    var p := PartyOf(u).value;
    assert DeleteUserSpec(w, principal, email) == Guarded(w, p);
    match p
    case AsCustomer(c) => CustomerPurgedCommits(w, c);
    case AsRestaurant(r) => RestaurantPurgedCommits(w, r);
    case AsCourier(k) => CourierPurgedCommits(w, k);
  }

  /** Admin accounts are never deleted here, whatever their orders (lines 124-128). */
  lemma DeleteAdminRefused(w: World, principal: Option<string>, email: string)
    requires !(principal.Some? && EqualsIgnoreCase(principal.value, email))
    requires UserByEmail(w, email).Some? && Upper(ProfileOf(w, UserByEmail(w, email).value).role) == "ADMIN"
    ensures DeleteUserSpec(w, principal, email) == (Err(AdminAccount), w)
  {
  }

  /**
   * One order of the account outside DELIVERED, CANCELLED and
   * CANCELLED_BY_CUSTOMER is enough for a CONFLICT that names it, and nothing
   * is deleted.
   */
  lemma DeleteBlockedByActiveOrder(w: World, principal: Option<string>, email: string, o: OrderId)
    requires !(principal.Some? && EqualsIgnoreCase(principal.value, email))
    requires UserByEmail(w, email).Some?
    requires var u := UserByEmail(w, email).value;
      PartyOf(u).Some? && Upper(ProfileOf(w, u).role) == RoleOf(PartyOf(u).value)
    requires o in w.orders && Involves(w.orders[o], PartyOf(UserByEmail(w, email).value).value)
    requires w.orders[o].status.Name() !in AdminFinals
    ensures DeleteUserSpec(w, principal, email).0.Err?
    ensures DeleteUserSpec(w, principal, email).0.error.HasActiveOrders?
    ensures o in DeleteUserSpec(w, principal, email).0.error.active
    ensures DeleteUserSpec(w, principal, email).1 == w
  {
    var u := UserByEmail(w, email).value;
    var p := PartyOf(u).value;
    assert o in ActiveOrders(w.orders, p, AdminFinals);
    assert DeleteUserSpec(w, principal, email) == Guarded(w, p);
  }

  /** A customer, restaurant or courier role on a row of another table fails with a 500 and deletes nothing. */
  lemma DeleteRoleMismatch(w: World, principal: Option<string>, email: string)
    requires !(principal.Some? && EqualsIgnoreCase(principal.value, email))
    requires UserByEmail(w, email).Some?
    requires var u := UserByEmail(w, email).value;
      var role := Upper(ProfileOf(w, u).role);
      (role == "CUSTOMER" || role == "RESTAURANT_OWNER" || role == "COURIER") &&
      (PartyOf(u).None? || RoleOf(PartyOf(u).value) != role)
    ensures DeleteUserSpec(w, principal, email) == (Err(ClassCast), w)
    ensures ClassCast.Code() == 500
  {
  }

  /** The clean-up of each kind of account keeps the database consistent when it commits. */
  lemma PurgedForConsistent(w: World, p: Party)
    requires Consistent(w)
    requires match p
      case AsCustomer(c) => c in w.customers
      case AsRestaurant(r) => r in w.restaurants
      case AsCourier(k) => k in w.couriers
    requires Integrity(PurgedFor(w, p))
    ensures Consistent(PurgedFor(w, p))
  {
    match p
    case AsCustomer(c) => CustomerPurgedCommits(w, c);
    case AsRestaurant(r) => RestaurantPurgedCommits(w, r);
    case AsCourier(k) => CourierPurgedCommits(w, k);
  }

  /** A deletion keeps the database consistent, whatever its outcome. */
  lemma DeleteUserConsistent(w: World, principal: Option<string>, email: string)
    requires Consistent(w)
    ensures Consistent(DeleteUserSpec(w, principal, email).1)
  {
    var (r, w') := DeleteUserSpec(w, principal, email);
    if r.Ok? {
      var u := UserByEmail(w, email).value;
      PurgedForConsistent(w, PartyOf(u).value);
    }
  }

  /** AdminController.deleteUserByEmail. */
  method DeleteUserByEmail(db: Store, principal: Option<string>, email: string) returns (r: Result<(), DeleteError>)
    requires db.Valid()
    modifies db
    ensures (r, db.View()) == DeleteUserSpec(old(db.View()), principal, email)
    ensures db.Valid()
  {
    if principal.Some? && EqualsIgnoreCase(principal.value, email) {
      return Err(SelfDeletion);
    }
    var found := FindUser(db, email);
    if found.None? {
      return Err(UserNotFound);
    }
    var u := found.value;
    var role := Upper(ProfileOf(db.View(), u).role);
    if !(role == "CUSTOMER" || role == "RESTAURANT_OWNER" || role == "COURIER") {
      return if role == "ADMIN" then Err(AdminAccount) else Err(UnknownRole);
    }
    var party := PartyOf(u);
    if party.None? || RoleOf(party.value) != role {
      return Err(ClassCast);
    }
    var active := ActiveOrders(db.orders, party.value, AdminFinals);
    if active != {} {
      return Err(HasActiveOrders(active));
    }
    var ok := Purge(db, party.value);
    r := if ok then Ok(()) else Err(ConstraintViolation);
  }

  /** The switch at lines 141-212: the clean-up of the account and the commit. */
  method Purge(db: Store, p: Party) returns (ok: bool)
    requires db.Valid()
    requires match p
      case AsCustomer(c) => c in db.customers
      case AsRestaurant(r) => r in db.restaurants
      case AsCourier(k) => k in db.couriers
    modifies db
    ensures ok == Integrity(PurgedFor(old(db.View()), p))
    ensures db.View() == if ok then PurgedFor(old(db.View()), p) else old(db.View())
    ensures db.Valid()
  {
    match p
    case AsCustomer(c) =>
      CustomerPurgedCommits(db.View(), c);
      ok := PurgeCustomer(db, c);
    case AsRestaurant(rid) =>
      ok := PurgeRestaurant(db, rid);
    case AsCourier(k) =>
      CourierPurgedCommits(db.View(), k);
      ok := PurgeCourier(db, k);
  }

  // ---------------------------------------------------------------------
  // cancelPendingOrdersForRestaurant (lines 350-361)
  // ---------------------------------------------------------------------

  const StatusesToCancel: set<string> := {"PENDING", "IN_PROGRESS", "PREPARING"}

  /** findByRestaurantRestaurantIdAndOrderStatusIn(restaurantId, statusesToCancel). */
  function OpenOrdersOf(orders: map<OrderId, Order>, rid: RestaurantId): set<OrderId>
  {
    set o | o in orders && orders[o].restaurant == Some(rid) && orders[o].status.Name() in StatusesToCancel
  }

  /** The orders after the restaurant's open ones are set to CANCELLED. */
  function PendingCancelled(orders: map<OrderId, Order>, rid: RestaurantId): map<OrderId, Order>
  {
    map o | o in orders :: if o in OpenOrdersOf(orders, rid) then orders[o].(status := Cancelled) else orders[o]
  }

  /**
   * Exactly the restaurant's PENDING, IN_PROGRESS and PREPARING orders become
   * CANCELLED; every other order, and every other column, is as it was. None
   * is left open, so a second run changes nothing.
   */
  lemma PendingCancelledExact(orders: map<OrderId, Order>, rid: RestaurantId, o: OrderId)
    requires StatusesCanonical(orders)
    ensures var r := PendingCancelled(orders, rid);
      && r.Keys == orders.Keys
      && (o in orders ==>
            && r[o].(status := orders[o].status) == orders[o]
            && (r[o].status != orders[o].status <==>
                  orders[o].restaurant == Some(rid) && orders[o].status in {Pending, InProgress, Preparing})
            && (r[o].status != orders[o].status ==> r[o].status == Cancelled))
      && OpenOrdersOf(r, rid) == {}
      && PendingCancelled(r, rid) == r
  {
    if o in orders && orders[o].status.Name() in StatusesToCancel {
      var st := orders[o].status;
      assert st.Name() == "PENDING" || st.Name() == "IN_PROGRESS" || st.Name() == "PREPARING";
      if st.Name() == "PENDING" {
        NameInjective(st, Pending);
      } else if st.Name() == "IN_PROGRESS" {
        NameInjective(st, InProgress);
      } else {
        NameInjective(st, Preparing);
      }
    }
    var r := PendingCancelled(orders, rid);
    assert OpenOrdersOf(r, rid) == {};
    assert PendingCancelled(r, rid) == r;
  }

  /** Cancelling orders keeps the database consistent: CANCELLED is an enum name. */
  lemma PendingCancelledConsistent(w: World, rid: RestaurantId)
    requires Consistent(w)
    ensures Consistent(w.(orders := PendingCancelled(w.orders, rid)))
  {
    var w' := w.(orders := PendingCancelled(w.orders, rid));
    forall o | o in w'.orders
      ensures OrderRefsOk(w'.orders[o], w'.menu, w'.customers, w'.restaurants, w'.couriers)
    {
      assert OrderRefsOk(w.orders[o], w.menu, w.customers, w.restaurants, w.couriers);
    }
    assert PaymentRefs(w'.payments, w'.orders);
    assert StatusesCanonical(w'.orders);
  }

  /** AdminController.cancelPendingOrdersForRestaurant: each open order of the restaurant is set to CANCELLED and saved. */
  method CancelPendingOrdersForRestaurant(db: Store, rid: RestaurantId)
    modifies db`orders
    ensures db.orders == PendingCancelled(old(db.orders), rid)
  {
    var toCancel := OpenOrdersOf(db.orders, rid);
    db.orders := UpdateEach(db.orders, toCancel, (o: Order) => o.(status := Cancelled));
  }

  // ---------------------------------------------------------------------
  // updateUser (lines 247-348)
  // ---------------------------------------------------------------------

  /** How updateUser answers. */
  datatype UpdateReply = UpdateNotFound | UserUpdated | NoChanges
  {
    function Code(): int
    {
      if this == UpdateNotFound then 404 else 200
    }
  }

  /** `updates.containsKey(key) && updates.get(key) instanceof String s`. */
  function StringField(updates: map<string, Json>, key: string): (r: Option<string>)
    ensures r.Some? <==> key in updates && updates[key].JString?
  {
    if key in updates && updates[key].JString? then Some(updates[key].s) else None
  }

  /** `updates.containsKey(key) && updates.get(key) instanceof Boolean b`. */
  function BoolField(updates: map<string, Json>, key: string): (r: Option<bool>)
    ensures r.Some? <==> key in updates && updates[key].JBool?
  {
    if key in updates && updates[key].JBool? then Some(updates[key].b) else None
  }

  const AccountStatuses: set<string> := {ACTIVE, SUSPENDED, BANNED}

  /** Lines 272-275: suspending or banning an ACTIVE admin while at most one admin exists is skipped. */
  predicate LastAdminGuard(p: Profile, status: string, adminCount: int)
  {
    p.role == "ADMIN" && (status == BANNED || status == SUSPENDED) && adminCount <= 1 && p.accountStatus == ACTIVE
  }

  /**
   * One guarded setter: the given value is written only when it differs from
   * the current one, and the flag says whether it was written.
   */
  function SetIfNew<T(==)>(current: T, given: Option<T>): (r: (T, bool))
    ensures r.1 <==> r.0 != current
    ensures r.0 == current || Some(r.0) == given
  {
    if given.Some? && given.value != current then (given.value, true) else (current, false)
  }

  /** Line 264: an empty name is ignored. */
  function NonEmpty(given: Option<string>): Option<string>
  {
    if given.Some? && given.value != "" then given else None
  }

  /** Lines 269-283: a status outside ACTIVE, SUSPENDED and BANNED, or one the last-admin guard refuses, is ignored. */
  function AllowedStatus(p: Profile, given: Option<string>, adminCount: int): Option<string>
  {
    if given.Some? && given.value in AccountStatuses && !LastAdminGuard(p, given.value, adminCount) then given else None
  }

  /** Lines 263-284: the name, phone and status, each written only when given and different; the flag says whether any was written. */
  function GeneralUpdates(p: Profile, updates: map<string, Json>, adminCount: int): (Profile, bool)
  {
    var (name, setName) := SetIfNew(p.name, NonEmpty(StringField(updates, "name")));
    var (phone, setPhone) := SetIfNew(p.phone, StringField(updates, "phone"));
    var (status, setStatus) := SetIfNew(p.accountStatus, AllowedStatus(p, StringField(updates, "status"), adminCount));
    (p.(name := name, phone := phone, accountStatus := status), setName || setPhone || setStatus)
  }

  /**
   * The general updates never touch the e-mail or the role; a new status is
   * one of ACTIVE, SUSPENDED and BANNED; the last ACTIVE admin keeps its
   * status; a name is never emptied; and the flag is raised exactly when the
   * profile changed.
   */
  lemma GeneralUpdatesProperties(p: Profile, updates: map<string, Json>, adminCount: int)
    ensures var (p', changed) := GeneralUpdates(p, updates, adminCount);
      && p'.email == p.email && p'.role == p.role
      && (p'.accountStatus != p.accountStatus ==> p'.accountStatus in AccountStatuses)
      && (p.role == "ADMIN" && adminCount <= 1 && p.accountStatus == ACTIVE ==> p'.accountStatus == ACTIVE)
      && (changed <==> p' != p)
      && (p'.name != p.name ==> p'.name != "")
  {
  }

  /** Lines 288-290: a customer's address, city and district. */
  function CustomerFields(c: Customer, updates: map<string, Json>): (res: (Customer, bool))
    ensures res.0.user == c.user
  {
    var (address, setAddress) := SetIfNew(c.address, StringField(updates, "address"));
    var (city, setCity) := SetIfNew(c.city, StringField(updates, "city"));
    var (district, setDistrict) := SetIfNew(c.district, StringField(updates, "district"));
    (c.(address := address, city := city, district := district), setAddress || setCity || setDistrict)
  }

  /** Lines 293-309: a restaurant's address, city, district, hours, cuisine and approval. */
  function RestaurantFields(r: Restaurant, updates: map<string, Json>): (res: (Restaurant, bool))
    ensures res.0.user == r.user
  {
    var (address, setAddress) := SetIfNew(r.address, StringField(updates, "address"));
    var (city, setCity) := SetIfNew(r.city, StringField(updates, "city"));
    var (district, setDistrict) := SetIfNew(r.district, StringField(updates, "district"));
    var (start, setStart) := SetIfNew(r.businessHoursStart, StringField(updates, "businessHoursStart"));
    var (end, setEnd) := SetIfNew(r.businessHoursEnd, StringField(updates, "businessHoursEnd"));
    var (cuisine, setCuisine) := SetIfNew(r.cuisineType, StringField(updates, "cuisineType"));
    var (approved, setApproved) := SetIfNew(r.approved, BoolField(updates, "approved"));
    (r.(address := address, city := city, district := district, businessHoursStart := start,
        businessHoursEnd := end, cuisineType := cuisine, approved := approved),
     setAddress || setCity || setDistrict || setStart || setEnd || setCuisine || setApproved)
  }

  /** A customer's update changes only its address, city and district, and the flag is raised exactly when the row changed. */
  lemma CustomerFieldsProperties(c: Customer, updates: map<string, Json>)
    ensures var (c', changed) := CustomerFields(c, updates);
      && c' == c.(address := c'.address, city := c'.city, district := c'.district)
      && (changed <==> c' != c)
  {
  }

  /** A restaurant's update keeps its id, its User columns and its open flag, and the flag is raised exactly when the row changed. */
  lemma RestaurantFieldsProperties(r: Restaurant, updates: map<string, Json>)
    ensures var (r', changed) := RestaurantFields(r, updates);
      && r'.restaurantId == r.restaurantId && r'.user == r.user && r'.isOpen == r.isOpen
      && (changed <==> r' != r)
  {
  }

  /**
   * Lines 324-337: a new role string, upper-cased, replaces the stored one
   * unless it equals the original role or either of them is ADMIN. Only the
   * string changes: the row stays in its table.
   */
  function RoleChange(p: Profile, originalRole: string, updates: map<string, Json>): (res: (Profile, bool))
    ensures res.0 == p.(role := res.0.role)
  {
    var role := StringField(updates, "role");
    if role.None? then (p, false)
    else
      var newRole := Upper(role.value);
      if EqualsIgnoreCase(originalRole, newRole) then (p, false)
      else if EqualsIgnoreCase(originalRole, "ADMIN") || EqualsIgnoreCase(newRole, "ADMIN") then (p, false)
      else (p.(role := newRole), true)
  }

  /** No role is changed to or from ADMIN, in any letter case, and a changed role is upper-case. */
  lemma RoleChangeNeverAdmin(p: Profile, updates: map<string, Json>)
    ensures var (p', changed) := RoleChange(p, Upper(p.role), updates);
      && (changed ==> Upper(p.role) != "ADMIN" && Upper(p'.role) != "ADMIN" && p'.role == Upper(p'.role))
      && (!changed ==> p' == p)
      && p' == p.(role := p'.role)
  {
    UpperIdempotent(p.role);
    UpperIdempotent("ADMIN");
    var role := StringField(updates, "role");
    if role.Some? {
      UpperIdempotent(role.value);
    }
  }

  /** Lines 312-315: the cascade runs when something changed and the status is now SUSPENDED but was not `previous`. */
  predicate SuspendsNow(changed: bool, current: string, previous: string)
  {
    changed && current == SUSPENDED && current != previous
  }

  /** Lines 291-315 for a restaurant: its own columns, then the suspension cascade. */
  function RestaurantStep(w: World, rid: RestaurantId, p1: Profile, general: bool, previous: string, updates: map<string, Json>): (res: (World, bool))
    requires rid in w.restaurants
    ensures rid in res.0.restaurants
  {
    var fields := RestaurantFields(w.restaurants[rid].(user := p1), updates);
    var orders := if SuspendsNow(general || fields.1, p1.accountStatus, previous) then PendingCancelled(w.orders, rid) else w.orders;
    (w.(restaurants := w.restaurants[rid := fields.0], orders := orders), fields.1)
  }

  /** Lines 285-322: the columns of the row's own table, and for a restaurant the suspension cascade. */
  function SpecificUpdates(w: World, u: UserRef, p0: Profile, p1: Profile, general: bool, updates: map<string, Json>,
                           readPreviousFirst: bool): (res: (World, bool))
    requires Exists(w, u)
    ensures Exists(res.0, u) && ProfileOf(res.0, u) == p1
  {
    match u
    case CustomerUser(c) =>
      var (row, changed) := CustomerFields(w.customers[c].(user := p1), updates);
      (w.(customers := w.customers[c := row]), changed)
    case RestaurantUser(r) =>
      RestaurantStep(w, r, p1, general, if readPreviousFirst then p0.accountStatus else p1.accountStatus, updates)
    case _ => (WithProfile(w, u, p1), false)
  }

  /**
   * updateUser on a found row. `readPreviousFirst` says where the
   * restaurant's previous status is read: false is the code as written (line
   * 292, after the status was overwritten at lines 278/281), true reads it
   * before any update, as the comment at line 292 intends.
   */
  function UpdateFound(w: World, u: UserRef, updates: map<string, Json>, readPreviousFirst: bool): (res: (UpdateReply, World))
    requires Exists(w, u)
    ensures res.0 != UpdateNotFound
  {
    var p0 := ProfileOf(w, u);
    var (p1, general) := GeneralUpdates(p0, updates, |w.admins|);
    var (w1, specific) := SpecificUpdates(w, u, p0, p1, general, updates, readPreviousFirst);
    var (p2, roleChanged) := RoleChange(ProfileOf(w1, u), Upper(p0.role), updates);
    (if general || specific || roleChanged then UserUpdated else NoChanges, WithProfile(w1, u, p2))
  }

  /** updateUser on a snapshot: the row is found by e-mail first. */
  ghost function UpdateUserCore(w: World, email: string, updates: map<string, Json>, readPreviousFirst: bool): (res: (UpdateReply, World))
    ensures res.0 == UpdateNotFound <==> UserByEmail(w, email).None?
    ensures res.0 == UpdateNotFound ==> res.1 == w
  {
    match UserByEmail(w, email)
    case None => (UpdateNotFound, w)
    case Some(u) => UpdateFound(w, u, updates, readPreviousFirst)
  }

  /** updateUser as written. */
  ghost function UpdateUserAsWritten(w: World, email: string, updates: map<string, Json>): (UpdateReply, World)
  {
    UpdateUserCore(w, email, updates, false)
  }

  /** updateUser with the suspension cascade the code intends, which the model uses. */
  ghost function UpdateUserSpec(w: World, email: string, updates: map<string, Json>): (UpdateReply, World)
  {
    UpdateUserCore(w, email, updates, true)
  }

  /**
   * As written, the suspension cascade never fires: the previous status it
   * compares with is read after the new status was stored, so updateUser
   * never changes an order.
   */
  lemma SuspensionCascadeUnreachable(w: World, email: string, updates: map<string, Json>)
    ensures UpdateUserAsWritten(w, email, updates).1.orders == w.orders
  {
    match UserByEmail(w, email)
    case None =>
    case Some(u) => AsWrittenKeepsOrders(w, u, updates);
  }

  lemma AsWrittenKeepsOrders(w: World, u: UserRef, updates: map<string, Json>)
    requires Exists(w, u)
    ensures UpdateFound(w, u, updates, false).1.orders == w.orders
  {
    var p0 := ProfileOf(w, u);
    var (p1, general) := GeneralUpdates(p0, updates, |w.admins|);
    SpecificStepKeepsOrders(w, u, p0, p1, general, updates);
  }

  /** Read after the general step, the previous status is the current one, so the cascade is skipped. */
  lemma SpecificStepKeepsOrders(w: World, u: UserRef, p0: Profile, p1: Profile, general: bool, updates: map<string, Json>)
    requires Exists(w, u)
    ensures SpecificUpdates(w, u, p0, p1, general, updates, false).0.orders == w.orders
  {
    if u.RestaurantUser? {
      RestaurantStepKeepsOrders(w, u.restaurantId, p1, general, updates);
    }
  }

  lemma RestaurantStepKeepsOrders(w: World, rid: RestaurantId, p1: Profile, general: bool, updates: map<string, Json>)
    requires rid in w.restaurants
    ensures RestaurantStep(w, rid, p1, general, p1.accountStatus, updates).0.orders == w.orders
  {
  }

  /**
   * The discrepancy: suspending an ACTIVE restaurant that has a PENDING
   * order leaves that order PENDING as written, while the intended update
   * cancels it.
   */
  lemma SuspensionDiscrepancy(w: World, email: string, o: OrderId)
    requires UserByEmail(w, email).Some? && UserByEmail(w, email).value.RestaurantUser?
    requires var rid := UserByEmail(w, email).value.restaurantId;
      w.restaurants[rid].user.accountStatus == ACTIVE && w.restaurants[rid].user.role != "ADMIN" &&
      o in w.orders && w.orders[o].restaurant == Some(rid) && w.orders[o].status == Pending
    ensures var updates := map["status" := JString(SUSPENDED)];
      && UpdateUserAsWritten(w, email, updates).1.orders[o].status == Pending
      && UpdateUserSpec(w, email, updates).1.orders[o].status == Cancelled
  {
    var updates := map["status" := JString(SUSPENDED)];
    var u := UserByEmail(w, email).value;
    SuspensionCascadeUnreachable(w, email, updates);
    var p0 := ProfileOf(w, u);
    assert StringField(updates, "status") == Some(SUSPENDED);
    var (p1, general) := GeneralUpdates(p0, updates, |w.admins|);
    assert p1.accountStatus == SUSPENDED;
    assert o in OpenOrdersOf(w.orders, u.restaurantId);
    IntendedCascade(w, u, updates);
  }

  /**
   * With the previous status read first, a restaurant whose status moves to
   * SUSPENDED gets exactly its open orders cancelled, and no other update
   * touches an order; the two versions differ in the orders only.
   */
  lemma SuspensionCancelsOpenOrders(w: World, email: string, updates: map<string, Json>)
    ensures var (_, w') := UpdateUserSpec(w, email, updates);
      && w' == UpdateUserAsWritten(w, email, updates).1.(orders := w'.orders)
      && (w'.orders != w.orders ==>
            && UserByEmail(w, email).Some? && UserByEmail(w, email).value.RestaurantUser?
            && var rid := UserByEmail(w, email).value.restaurantId;
               && w.restaurants[rid].user.accountStatus != SUSPENDED
               && w'.restaurants[rid].user.accountStatus == SUSPENDED
               && w'.orders == PendingCancelled(w.orders, rid))
  {
    match UserByEmail(w, email)
    case None =>
    case Some(u) => IntendedCascade(w, u, updates);
  }

  lemma IntendedCascade(w: World, u: UserRef, updates: map<string, Json>)
    requires Exists(w, u)
    ensures var w' := UpdateFound(w, u, updates, true).1;
      && w' == UpdateFound(w, u, updates, false).1.(orders := w'.orders)
      && (w'.orders != w.orders ==>
            && u.RestaurantUser?
            && w.restaurants[u.restaurantId].user.accountStatus != SUSPENDED
            && w'.restaurants[u.restaurantId].user.accountStatus == SUSPENDED
            && w'.orders == PendingCancelled(w.orders, u.restaurantId))
    ensures u.RestaurantUser? && w.restaurants[u.restaurantId].user.accountStatus != SUSPENDED &&
            GeneralUpdates(ProfileOf(w, u), updates, |w.admins|).0.accountStatus == SUSPENDED ==>
            UpdateFound(w, u, updates, true).1.orders == PendingCancelled(w.orders, u.restaurantId)
  {
    var p0 := ProfileOf(w, u);
    var (p1, general) := GeneralUpdates(p0, updates, |w.admins|);
    GeneralUpdatesProperties(p0, updates, |w.admins|);
    var (w1, specific) := SpecificUpdates(w, u, p0, p1, general, updates, true);
    var (v1, specific') := SpecificUpdates(w, u, p0, p1, general, updates, false);
    assert specific == specific';
    assert w1 == v1.(orders := w1.orders);
    AsWrittenKeepsOrders(w, u, updates);
  }

  /** An update writes no e-mail and keeps the database consistent. */
  lemma UpdateFoundConsistent(w: World, u: UserRef, updates: map<string, Json>, readPreviousFirst: bool)
    requires Consistent(w) && Exists(w, u)
    ensures Consistent(UpdateFound(w, u, updates, readPreviousFirst).1)
    ensures Exists(UpdateFound(w, u, updates, readPreviousFirst).1, u)
    ensures ProfileOf(UpdateFound(w, u, updates, readPreviousFirst).1, u).email == ProfileOf(w, u).email
  {
    var p0 := ProfileOf(w, u);
    var (p1, general) := GeneralUpdates(p0, updates, |w.admins|);
    GeneralUpdatesProperties(p0, updates, |w.admins|);
    SpecificUpdatesConsistent(w, u, p0, p1, general, updates, readPreviousFirst);
    var (w1, specific) := SpecificUpdates(w, u, p0, p1, general, updates, readPreviousFirst);
    var (p2, roleChanged) := RoleChange(ProfileOf(w1, u), Upper(p0.role), updates);
    WithProfileConsistent(w1, u, p2);
  }

  /** The table-specific step keeps the database consistent when the e-mail is kept. */
  lemma SpecificUpdatesConsistent(w: World, u: UserRef, p0: Profile, p1: Profile, general: bool, updates: map<string, Json>,
                                  readPreviousFirst: bool)
    requires Consistent(w) && Exists(w, u) && p1.email == ProfileOf(w, u).email
    ensures Consistent(SpecificUpdates(w, u, p0, p1, general, updates, readPreviousFirst).0)
  {
    match u {
      case CustomerUser(c) =>
        var row := CustomerFields(w.customers[c].(user := p1), updates).0;
        CustomerFieldsProperties(w.customers[c].(user := p1), updates);
        CustomerUpdateConsistent(w, c, row);
      case RestaurantUser(r) =>
        var row := RestaurantFields(w.restaurants[r].(user := p1), updates).0;
        RestaurantUpdateConsistent(w, r, row);
        PendingCancelledConsistent(w.(restaurants := w.restaurants[r := row]), r);
        var w1 := SpecificUpdates(w, u, p0, p1, general, updates, readPreviousFirst).0;
        assert w1 == w.(restaurants := w.restaurants[r := row]) || w1 == w.(restaurants := w.restaurants[r := row]).(orders := PendingCancelled(w.orders, r));
      case _ =>
        WithProfileConsistent(w, u, p1);
    }
  }

  /**
   * The reply tells the truth: "No changes applied" exactly when the
   * database is as it was, and a successful update changes it.
   */
  lemma UpdateFoundReplyExact(w: World, u: UserRef, updates: map<string, Json>, readPreviousFirst: bool)
    requires Exists(w, u)
    ensures UpdateFound(w, u, updates, readPreviousFirst).0 == NoChanges <==> UpdateFound(w, u, updates, readPreviousFirst).1 == w
  {
    UpdateFoundNoChanges(w, u, updates, readPreviousFirst);
    UpdateFoundChanges(w, u, updates, readPreviousFirst);
  }

  /** When no step reports a change, every step wrote back what it read. */
  lemma UpdateFoundNoChanges(w: World, u: UserRef, updates: map<string, Json>, readPreviousFirst: bool)
    requires Exists(w, u)
    ensures UpdateFound(w, u, updates, readPreviousFirst).0 == NoChanges ==> UpdateFound(w, u, updates, readPreviousFirst).1 == w
  {
    var p0 := ProfileOf(w, u);
    var (p1, general) := GeneralUpdates(p0, updates, |w.admins|);
    GeneralUpdatesProperties(p0, updates, |w.admins|);
    var (w1, specific) := SpecificUpdates(w, u, p0, p1, general, updates, readPreviousFirst);
    if !general && !specific {
      assert p1 == p0;
      SpecificUnchanged(w, u, updates, readPreviousFirst);
      assert w1 == w;
      RoleChangeNeverAdmin(p0, updates);
      var (p2, roleChanged) := RoleChange(p0, Upper(p0.role), updates);
      assert !roleChanged ==> WithProfile(w, u, p2) == w;
    }
  }

  /** With the shared columns as they were, a table step that reports no change writes back its row. */
  lemma SpecificUnchanged(w: World, u: UserRef, updates: map<string, Json>, readPreviousFirst: bool)
    requires Exists(w, u)
    ensures var p0 := ProfileOf(w, u);
      !SpecificUpdates(w, u, p0, p0, false, updates, readPreviousFirst).1 ==> SpecificUpdates(w, u, p0, p0, false, updates, readPreviousFirst).0 == w
  {
    match u {
      case CustomerUser(c) =>
        CustomerFieldsProperties(w.customers[c], updates);
        assert w.customers[c].(user := ProfileOf(w, u)) == w.customers[c];
      case RestaurantUser(r) =>
        RestaurantStepUnchanged(w, r, updates, readPreviousFirst);
      case _ =>
    }
  }

  lemma RestaurantStepUnchanged(w: World, rid: RestaurantId, updates: map<string, Json>, readPreviousFirst: bool)
    requires rid in w.restaurants
    ensures var p0 := w.restaurants[rid].user;
      !RestaurantStep(w, rid, p0, false, p0.accountStatus, updates).1 ==> RestaurantStep(w, rid, p0, false, p0.accountStatus, updates).0 == w
  {
    RestaurantFieldsProperties(w.restaurants[rid], updates);
    assert w.restaurants[rid].(user := w.restaurants[rid].user) == w.restaurants[rid];
  }

  /** A step that reports a change leaves a value in the row that differs from the old one. */
  lemma UpdateFoundChanges(w: World, u: UserRef, updates: map<string, Json>, readPreviousFirst: bool)
    requires Exists(w, u)
    ensures UpdateFound(w, u, updates, readPreviousFirst).0 != NoChanges ==> UpdateFound(w, u, updates, readPreviousFirst).1 != w
  {
    var p0 := ProfileOf(w, u);
    var (p1, general) := GeneralUpdates(p0, updates, |w.admins|);
    GeneralUpdatesProperties(p0, updates, |w.admins|);
    var (w1, specific) := SpecificUpdates(w, u, p0, p1, general, updates, readPreviousFirst);
    var (p2, roleChanged) := RoleChange(ProfileOf(w1, u), Upper(p0.role), updates);
    var w2 := WithProfile(w1, u, p2);
    match u {
      case CustomerUser(c) =>
        CustomerFieldsProperties(w.customers[c].(user := p1), updates);
      case RestaurantUser(r) =>
        RestaurantFieldsProperties(w.restaurants[r].(user := p1), updates);
      case _ =>
    }
    if roleChanged {
      UpperIdempotent(p0.role);
      UpperIdempotent(StringField(updates, "role").value);
      assert p2.role != p0.role;
    }
    assert general || specific || roleChanged ==> ProfileOf(w2, u) != p0 || w2 != w;
  }

  /** AdminController.updateUser, with the suspension cascade reading the status before the update. */
  method UpdateUser(db: Store, email: string, updates: map<string, Json>) returns (reply: UpdateReply)
    requires db.Valid()
    modifies db
    ensures (reply, db.View()) == UpdateUserSpec(old(db.View()), email, updates)
    ensures db.Valid()
  {
    var found := FindUser(db, email);
    if found.None? {
      return UpdateNotFound;
    }
    UpdateFoundConsistent(db.View(), found.value, updates, true);
    reply := UpdateFoundRow(db, found.value, updates);
  }

  /** Lines 259-347 on the found row: the general updates, the table's own columns, the role, and the save. */
  method UpdateFoundRow(db: Store, u: UserRef, updates: map<string, Json>) returns (reply: UpdateReply)
    requires Exists(db.View(), u)
    modifies db`customers, db`couriers, db`restaurants, db`admins, db`orders
    ensures (reply, db.View()) == UpdateFound(old(db.View()), u, updates, true)
  {
    var p0 := ProfileOf(db.View(), u);
    var originalRole := Upper(p0.role);
    var (p1, general) := GeneralUpdates(p0, updates, |db.admins|);
    var specific := ApplySpecificUpdates(db, u, p0, p1, general, updates);
    var (p2, roleChanged) := RoleChange(ProfileOf(db.View(), u), originalRole, updates);
    if general || specific || roleChanged {
      SaveUser(db, u, p2);
      reply := UserUpdated;
    } else {
      reply := NoChanges;
    }
  }

  /** Lines 285-322: the columns of the row's own table, and for a restaurant the suspension cascade. */
  method ApplySpecificUpdates(db: Store, u: UserRef, p0: Profile, p1: Profile, general: bool, updates: map<string, Json>)
    returns (specific: bool)
    requires Exists(db.View(), u)
    modifies db`customers, db`couriers, db`restaurants, db`admins, db`orders
    ensures (db.View(), specific) == SpecificUpdates(old(db.View()), u, p0, p1, general, updates, true)
  {
    match u {
      case CustomerUser(c) =>
        var (row, changed) := CustomerFields(db.customers[c].(user := p1), updates);
        db.customers := db.customers[c := row];
        specific := changed;
      case RestaurantUser(r) =>
        var previous := p0.accountStatus;
        var (row, changed) := RestaurantFields(db.restaurants[r].(user := p1), updates);
        db.restaurants := db.restaurants[r := row];
        specific := changed;
        if SuspendsNow(general || changed, row.user.accountStatus, previous) {
          CancelPendingOrdersForRestaurant(db, r);
        }
      case _ =>
        SaveUser(db, u, p1);
        specific := false;
    }
  }

  // ---------------------------------------------------------------------
  // approveRestaurant (lines 399-419)
  // ---------------------------------------------------------------------

  datatype ApproveReply = RestaurantNotFound | AlreadyApproved | Approved
  {
    function Code(): int
    {
      if this == RestaurantNotFound then 404 else 200
    }
  }

  function ApproveRestaurantSpec(w: World, rid: RestaurantId): (res: (ApproveReply, World))
  {
    if rid !in w.restaurants then (RestaurantNotFound, w)
    else if w.restaurants[rid].approved then (AlreadyApproved, w)
    else (Approved, w.(restaurants := w.restaurants[rid := w.restaurants[rid].(approved := true)]))
  }

  /**
   * Approval sets exactly the restaurant's approved flag and nothing else;
   * afterwards the restaurant is approved, and a second approval answers
   * "already approved" without a change.
   */
  lemma ApproveRestaurantIdempotent(w: World, rid: RestaurantId)
    ensures var (r, w') := ApproveRestaurantSpec(w, rid);
      && (r == RestaurantNotFound <==> rid !in w.restaurants)
      && (r != RestaurantNotFound ==> w'.restaurants[rid] == w.restaurants[rid].(approved := true))
      && w' == w.(restaurants := w'.restaurants)
      && w'.restaurants.Keys == w.restaurants.Keys
      && (forall q :: q in w.restaurants && q != rid ==> w'.restaurants[q] == w.restaurants[q])
      && (r != RestaurantNotFound ==> ApproveRestaurantSpec(w', rid) == (AlreadyApproved, w'))
  {
  }

  /** AdminController.approveRestaurant. */
  method ApproveRestaurant(db: Store, rid: RestaurantId) returns (reply: ApproveReply)
    requires db.Valid()
    modifies db`restaurants
    ensures (reply, db.View()) == ApproveRestaurantSpec(old(db.View()), rid)
    ensures db.Valid()
  {
    if rid !in db.restaurants {
      return RestaurantNotFound;
    }
    var restaurant := db.restaurants[rid];
    if restaurant.approved {
      return AlreadyApproved;
    }
    RestaurantUpdateConsistent(db.View(), rid, restaurant.(approved := true));
    db.restaurants := db.restaurants[rid := restaurant.(approved := true)];
    reply := Approved;
  }
}
