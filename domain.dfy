// Shared vocabulary of the delivery backend: identifiers, the persisted
// records (as values), the order-status enumeration with its free-text escape
// hatch, Java's 32-bit int arithmetic and the ASCII case mapping used by
// `toUpperCase` / `equalsIgnoreCase`.
module Domain {

  datatype Option<+T> = None | Some(value: T)

  datatype Result<+T, +E> = Ok(value: T) | Err(error: E)

  // MenuItem.id and CourierRestaurantRequest.id are generated Longs; the other
  // identifiers are strings ("order-" + UUID, customerId, restaurantId, ...).
  type ItemId = int
  type RequestId = int
  type CustomerId = string
  type CourierId = string
  type RestaurantId = string
  type OrderId = string
  type AdminId = int

  /** A non-empty map has a key, so an iterator over it returns a first entry. */
  lemma SomeKey<K, V>(m: map<K, V>) returns (k: K)
    requires m != map[]
    ensures k in m
  {
    assert m.Keys != {};
    k :| k in m.Keys;
  }

  /** A non-empty set has an element, so a loop over it can pick one. */
  lemma SomeElement<T>(s: set<T>) returns (x: T)
    requires s != {}
    ensures x in s
  {
    x :| x in s;
  }

  // ---------------------------------------------------------------------
  // Java `int`
  // ---------------------------------------------------------------------

  const TwoTo31: int := 0x8000_0000
  const TwoTo32: int := 0x1_0000_0000

  predicate IsInt32(x: int) { -TwoTo31 <= x < TwoTo31 }

  /** Two's-complement wrap-around of Java `int` addition. */
  function Wrap32(x: int): (r: int)
    ensures IsInt32(r)
    ensures (r - x) % TwoTo32 == 0
    ensures IsInt32(x) ==> r == x
  {
    (x + TwoTo31) % TwoTo32 - TwoTo31
  }

  // ---------------------------------------------------------------------
  // ASCII case mapping (String.toUpperCase / equalsIgnoreCase)
  // ---------------------------------------------------------------------

  function UpperChar(c: char): char
  {
    if 'a' <= c <= 'z' then (c as int - 32) as char else c
  }

  function Upper(s: string): (r: string)
    ensures |r| == |s|
    ensures forall i :: 0 <= i < |s| ==> r[i] == UpperChar(s[i])
  {
    seq(|s|, i requires 0 <= i < |s| => UpperChar(s[i]))
  }

  predicate EqualsIgnoreCase(a: string, b: string)
  {
    Upper(a) == Upper(b)
  }

  /** A string without lower-case ASCII letters is its own upper-case form. */
  lemma UpperOfUpperCase(s: string)
    requires forall i :: 0 <= i < |s| ==> !('a' <= s[i] <= 'z')
    ensures Upper(s) == s
  {
  }

  /** Upper-casing is idempotent, so `equalsIgnoreCase(x, "LIT")` holds exactly when `Upper(x) == "LIT"`. */
  lemma UpperIdempotent(s: string)
    ensures Upper(Upper(s)) == Upper(s)
  {
  }

  // ---------------------------------------------------------------------
  // Account status (User.accountStatus is a free String, default "ACTIVE")
  // ---------------------------------------------------------------------

  const ACTIVE: string := "ACTIVE"
  const SUSPENDED: string := "SUSPENDED"
  const BANNED: string := "BANNED"

  /** The two account statuses the backend refuses to trade with. */
  predicate Blocked(accountStatus: string)
  {
    accountStatus == BANNED || accountStatus == SUSPENDED
  }

  // ---------------------------------------------------------------------
  // Order status (ENUM/OrderStatus.java). Order.orderStatus is stored as a
  // String and updateOrderStatus writes any string into it, so the model has
  // one constructor per enum constant plus `Other` for every other string.
  // ---------------------------------------------------------------------

  datatype OrderStatus =
    | Pending
    | InProgress
    | Preparing
    | Ready
    | PickedUp
    | Delivered
    | Cancelled
    | CancelledByCustomer
    | Other(raw: string)
  {
    /** The string the backend stores and compares. */
    function Name(): string
    {
      match this
      case Pending => "PENDING"
      case InProgress => "IN_PROGRESS"
      case Preparing => "PREPARING"
      case Ready => "READY"
      case PickedUp => "PICKED_UP"
      case Delivered => "DELIVERED"
      case Cancelled => "CANCELLED"
      case CancelledByCustomer => "CANCELLED_BY_CUSTOMER"
      case Other(s) => s
    }
  }

  const EnumNames: set<string> :=
    {"PENDING", "IN_PROGRESS", "PREPARING", "READY", "PICKED_UP", "DELIVERED", "CANCELLED", "CANCELLED_BY_CUSTOMER"}

  /** A status value in normal form: `Other` is kept for strings that are not enum names. */
  predicate Canonical(st: OrderStatus)
  {
    st.Other? ==> st.raw !in EnumNames
  }

  /** Reads a stored status string back into the datatype. */
  function ParseStatus(s: string): (st: OrderStatus)
    ensures st.Name() == s
    ensures Canonical(st)
  {
    if s == "PENDING" then Pending
    else if s == "IN_PROGRESS" then InProgress
    else if s == "PREPARING" then Preparing
    else if s == "READY" then Ready
    else if s == "PICKED_UP" then PickedUp
    else if s == "DELIVERED" then Delivered
    else if s == "CANCELLED" then Cancelled
    else if s == "CANCELLED_BY_CUSTOMER" then CancelledByCustomer
    else Other(s)
  }

  /** Storing a canonical status and reading it back gives the same status. */
  lemma ParseName(st: OrderStatus)
    requires Canonical(st)
    ensures ParseStatus(st.Name()) == st
  {
    match st
    case Other(s) =>
    case _ =>
  }

  /** On canonical values, equal stored strings mean equal statuses. */
  lemma NameInjective(a: OrderStatus, b: OrderStatus)
    requires Canonical(a) && Canonical(b)
    requires a.Name() == b.Name()
    ensures a == b
  {
    ParseName(a);
    ParseName(b);
  }

  // ---------------------------------------------------------------------
  // Persisted records, as values
  // ---------------------------------------------------------------------

  /** The columns every User subclass shares (model/User.java). */
  datatype Profile = Profile(name: string, email: string, phone: string, role: string, accountStatus: string)

  datatype Customer = Customer(
    customerId: CustomerId,
    user: Profile,
    address: string,
    city: string,
    district: string,
    favorites: set<RestaurantId>)

  datatype Restaurant = Restaurant(
    restaurantId: RestaurantId,
    user: Profile,
    address: string,
    city: string,
    district: string,
    businessHoursStart: string,
    businessHoursEnd: string,
    cuisineType: string,
    approved: bool,
    isOpen: bool)

  datatype Courier = Courier(courierId: CourierId, user: Profile, restaurantOwner: Option<RestaurantId>)

  datatype Admin = Admin(adminId: AdminId, user: Profile)

  /** Prices are integer minor units (kuruş) instead of Java doubles. */
  datatype MenuItem = MenuItem(
    id: ItemId,
    name: string,
    description: string,
    price: int,
    available: bool,
    restaurant: Option<RestaurantId>)

  datatype Order = Order(
    orderId: OrderId,
    customer: Option<CustomerId>,
    restaurant: Option<RestaurantId>,
    courier: Option<CourierId>,
    items: map<ItemId, int>,
    deliveryAddress: string,
    paymentMethod: string,
    deliveryType: string,
    status: OrderStatus,
    totalAmount: int,
    tipAmount: int)

  datatype RequestStatus = RequestPending | RequestAccepted | RequestRejected

  datatype Request = Request(id: RequestId, courier: CourierId, restaurant: RestaurantId, status: RequestStatus)

  datatype Payment = Payment(
    paymentId: string,
    orderId: OrderId,
    paymentMethod: string,
    status: string,
    cardNumber: Option<string>,
    expiryDate: Option<string>,
    cvc: Option<string>)

  /** A JSON value of a `Map<String, Object>` request body. */
  datatype Json = JString(s: string) | JBool(b: bool) | JNull | JOther
}
