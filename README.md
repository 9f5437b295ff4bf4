# Food-delivery backend and checkout pages: a verified model

This project models the core of a food-delivery application made of a
Spring backend and a React frontend. It covers these parts:

- **The cart.** A customer's cart maps menu items to quantities. Items are
  added by an additive merge, after a chain of checks on the item and its
  restaurant. Two lines of one cart never come from different restaurants.
- **Orders.** An order is created from the cart and priced. A payment is
  recorded with a masked card number. The customer may cancel the order,
  and the restaurant may set its status to any string.
- **Couriers.** A courier asks a restaurant to take it on. The restaurant
  answers the request, which may overwrite the courier's affiliation. An
  affiliated courier lists the pending orders of its restaurant and claims
  them, at most once per order.
- **Accounts and menus.** An administrator deletes and updates accounts, and
  a user edits and deletes its own profile. A restaurant owner edits and
  deletes menu items. Each of these is guarded by "nothing active refers to
  it" scans and followed by clean-up loops over orders, couriers, requests
  and favourites.
- **Two frontend pages.** The restaurant administration form has a time
  formatter and validators. The checkout page has the card, expiry and CVV
  input filters and the order-summary handlers.

The database is a `Store` class (module `Persistence`) whose fields are
in-memory tables keyed by id. `Store.View()` is the value snapshot of those
tables, a `World`. Each endpoint is modelled twice:

- as an imperative method on the store, with the early returns and loops of
  the Java code;
- as a function from the old `World` to its result and the new `World`.

Each method's contract says that it computes exactly that function and that
it keeps `Store.Valid()`. The lemmas beside the function state what the
endpoint promises. `Valid()` is the database invariant:

- foreign keys hold;
- e-mails are unique per user table;
- every cart holds items of one restaurant;
- order statuses are stored canonically.

A clean-up that would leave a dangling foreign key is refused as a whole. In
that case the store is unchanged, as the schema's constraints and the
transaction rollback of the Java code would do.

Modelling choices:

- Money is in integer minor units: kuruş on the checkout page, and an
  integer price in the backend.
- Java's `int` merge of quantities wraps modulo 2^32 (`Domain.Wrap32`).
- Order statuses are a datatype with an `Other(raw)` case, because the
  backend stores any string.
- `model/Order.java` declares no courier field, yet the controllers read and
  write one (`CourierOrderController.java`, `AdminController.java`,
  `ProfileController.java`) and `OrderRepository` queries by it. The model
  therefore adds a column `courier: Option<CourierId>` to `Order`; what is
  proved about couriers on orders (AcceptOrderOk, CourierPurged,
  SelfCourierDeletion, "no courier" in CreateOrderShape) rests on that
  assumed column. The same holds for the customer's favourites and the
  restaurant's approval flag, which the controllers use and the entity
  files shown do not declare.
- The element the Java code reads with `iterator().next()` from a `HashMap`
  is a parameter, ghost on the method. Lemmas show that the choice does not
  change the outcome.

## Model

| member | source | states |
|---|---|---|
| Domain.Wrap32 | backend/delivery_backend/src/main/java/com/backend/delivery_backend/model/Cart.java:46-48 | the result is a 32-bit int congruent to its argument modulo 2^32, and equal to it when it already fits |
| Domain.Upper | backend/delivery_backend/src/main/java/com/backend/delivery_backend/service/OrderService.java:134 | ASCII upper-casing keeps the length and maps every character independently |
| Domain.UpperOfUpperCase | backend/delivery_backend/src/main/java/com/backend/delivery_backend/service/OrderService.java:134 | a string without lower-case ASCII letters is its own upper case |
| Domain.UpperIdempotent | backend/delivery_backend/src/main/java/com/backend/delivery_backend/service/OrderService.java:134 | upper-casing twice is upper-casing once |
| Domain.ParseStatus | backend/delivery_backend/src/main/java/com/backend/delivery_backend/controller/OrderController.java:238-243 | any stored status string reads back as a canonical status with that exact name |
| Domain.ParseName | backend/delivery_backend/src/main/java/com/backend/delivery_backend/controller/OrderController.java:238-243 | parsing the name of a canonical status gives back that status |
| Domain.NameInjective | backend/delivery_backend/src/main/java/com/backend/delivery_backend/controller/OrderController.java:238-243 | two canonical statuses with the same name are the same status |
| Persistence.Store.Commit | backend/delivery_backend/src/main/java/com/backend/delivery_backend/controller/AdminController.java:67-69 | a transaction writes every table exactly when the new state keeps the foreign keys; otherwise nothing changes |
| Persistence.Store.LoadCart | backend/delivery_backend/src/main/java/com/backend/delivery_backend/controller/CartController.java:85 | a fresh cart object is loaded exactly when the customer has a cart row, and it holds that row |
| Persistence.Store.SaveCart | backend/delivery_backend/src/main/java/com/backend/delivery_backend/controller/CartController.java:106 | saving writes the cart's row and no other row |
| Persistence.CustomerByEmailFound | backend/delivery_backend/src/main/java/com/backend/delivery_backend/controller/CartController.java:39 | the customer lookup finds a row with that e-mail, and finds none only when no customer has it |
| Persistence.CourierByEmailFound | backend/delivery_backend/src/main/java/com/backend/delivery_backend/controller/CourierOrderController.java:40 | the same for couriers |
| Persistence.RestaurantByEmailFound | backend/delivery_backend/src/main/java/com/backend/delivery_backend/controller/ProfileController.java:79 | the same for restaurants |
| Persistence.AdminByEmailFound | backend/delivery_backend/src/main/java/com/backend/delivery_backend/service/UserDetailsServiceImpl.java:156 | the same for admins |
| Persistence.FindCustomer | backend/delivery_backend/src/main/java/com/backend/delivery_backend/controller/CartController.java:38-39 | the lookup returns the customer with that e-mail, if any |
| Persistence.FindCourier | backend/delivery_backend/src/main/java/com/backend/delivery_backend/controller/CourierOrderController.java:39-40 | the lookup returns the courier with that e-mail, if any |
| Persistence.FindRestaurant | backend/delivery_backend/src/main/java/com/backend/delivery_backend/controller/ProfileController.java:79 | the lookup returns the restaurant with that e-mail, if any |
| Persistence.FindAdmin | backend/delivery_backend/src/main/java/com/backend/delivery_backend/service/UserDetailsServiceImpl.java:156 | the lookup returns the admin with that e-mail, if any |
| Persistence.CartUpdateConsistent | backend/delivery_backend/src/main/java/com/backend/delivery_backend/controller/CartController.java:105-106 | writing a cart of existing items of one restaurant keeps the database invariant |
| Persistence.SetStatusConsistent | backend/delivery_backend/src/main/java/com/backend/delivery_backend/controller/OrderController.java:245 | writing a canonical status onto an order keeps the database invariant |
| Carts.Cart.constructor | backend/delivery_backend/src/main/java/com/backend/delivery_backend/model/Cart.java:19 | a new cart has the given id and customer and an empty items map |
| Carts.Cart.AddItem | backend/delivery_backend/src/main/java/com/backend/delivery_backend/model/Cart.java:46-48 | the items become the summing merge of the old items with the new line; id and customer are unchanged |
| Carts.MergedKeys | backend/delivery_backend/src/main/java/com/backend/delivery_backend/model/Cart.java:47 | the merge never removes a key: the keys are the old keys plus the item |
| Carts.MergedInsert | backend/delivery_backend/src/main/java/com/backend/delivery_backend/model/Cart.java:47 | an absent item is inserted with exactly the given quantity |
| Carts.MergedAdditive | backend/delivery_backend/src/main/java/com/backend/delivery_backend/model/Cart.java:47 | a present item gets old + new quantity, with no sign check |
| Carts.MergedFrame | backend/delivery_backend/src/main/java/com/backend/delivery_backend/model/Cart.java:47 | every other line keeps its quantity |
| Carts.MergedTwice | backend/delivery_backend/src/main/java/com/backend/delivery_backend/model/Cart.java:47 | merging a then b is merging the 32-bit sum a + b |
| Carts.Cart.FirstItem | backend/delivery_backend/src/main/java/com/backend/delivery_backend/controller/CartController.java:94 | the first item of a non-empty cart is one of its lines |
| Carts.Cart.Clear | backend/delivery_backend/src/main/java/com/backend/delivery_backend/controller/CartController.java:133 | clearing empties the items and keeps id and customer |
| Carts.Cart.SetQuantity | backend/delivery_backend/src/main/java/com/backend/delivery_backend/controller/OrderController.java:175 | putting a quantity changes that line only |
| Carts.Cart.RemoveLine | backend/delivery_backend/src/main/java/com/backend/delivery_backend/controller/OrderController.java:209 | removing drops that line only |
| CartService.ServiceGate | backend/delivery_backend/src/main/java/com/backend/delivery_backend/service/CartService.java:40-52 | the service's item checks fail for an unknown item, a missing, unapproved, banned or suspended restaurant, and otherwise yield the item's restaurant |
| CartService.ServiceAddSpec | backend/delivery_backend/src/main/java/com/backend/delivery_backend/service/CartService.java:27-69 | on failure the only change left is the empty cart created first |
| CartService.ServiceSavesCartFirst | backend/delivery_backend/src/main/java/com/backend/delivery_backend/service/CartService.java:29-37 | a customer without a cart has one after the call, even when the item is refused |
| CartService.EnsureCart | backend/delivery_backend/src/main/java/com/backend/delivery_backend/service/CartService.java:29-37 | the store with the customer's cart created when missing; ServiceSavesCartFirst and EnsureCartSingleRestaurant state its effect |
| CartService.ServiceGateAdmitsControllerGate | backend/delivery_backend/src/main/java/com/backend/delivery_backend/service/CartService.java:40-52 | every item the controller's checks admit, the service's checks admit with the same restaurant |
| CartService.ServiceSkipsAvailabilityAndOpening | backend/delivery_backend/src/main/java/com/backend/delivery_backend/service/CartService.java:43-52 | an unavailable item of an approved, active restaurant is refused by the controller and admitted by the service |
| CartService.ServiceKeepsSingleRestaurant | backend/delivery_backend/src/main/java/com/backend/delivery_backend/service/CartService.java:54-66 | the service add keeps every cart within one restaurant |
| CartService.EnsureCartSingleRestaurant | backend/delivery_backend/src/main/java/com/backend/delivery_backend/service/CartService.java:29-37 | creating the missing cart keeps every cart within one restaurant and keeps the customer's items |
| CartService.ServiceFirstIrrelevant | backend/delivery_backend/src/main/java/com/backend/delivery_backend/service/CartService.java:55-62 | which line is read as the first does not change the outcome |
| CartService.ServiceConsistent | backend/delivery_backend/src/main/java/com/backend/delivery_backend/service/CartService.java:27-69 | the service add keeps the database invariant |
| CartService.SaveCartIfMissing | backend/delivery_backend/src/main/java/com/backend/delivery_backend/service/CartService.java:29-37 | the method creates and saves the missing cart as specified |
| CartService.AddToCart | backend/delivery_backend/src/main/java/com/backend/delivery_backend/service/CartService.java:27-69 | the method computes the service add and keeps the database valid |
| CartController.ItemGate | backend/delivery_backend/src/main/java/com/backend/delivery_backend/controller/CartController.java:47-82 | the item checks fail for an unknown item, an unavailable item, a missing or unapproved, banned or suspended, or closed restaurant, and otherwise yield the item's restaurant |
| CartController.AddToCartSpec | backend/delivery_backend/src/main/java/com/backend/delivery_backend/controller/CartController.java:34-109 | a refused add changes nothing |
| CartController.AddLineSpec | backend/delivery_backend/src/main/java/com/backend/delivery_backend/controller/CartController.java:84-106 | a refused line changes nothing |
| CartController.MergeKeepsSingleRestaurant | backend/delivery_backend/src/main/java/com/backend/delivery_backend/controller/CartController.java:92-105 | merging an item of restaurant R into lines all of R leaves lines all of R |
| CartController.AddToCartKeepsSingleRestaurant | backend/delivery_backend/src/main/java/com/backend/delivery_backend/controller/CartController.java:92-106 | a successful add keeps every cart within one restaurant |
| CartController.AddToCartFirstIrrelevant | backend/delivery_backend/src/main/java/com/backend/delivery_backend/controller/CartController.java:93-102 | under that invariant, which line is read as the first does not change the outcome |
| CartController.AddToCartOk | backend/delivery_backend/src/main/java/com/backend/delivery_backend/controller/CartController.java:37-109 | a successful add merges the quantity into the customer's cart, creates it as "cart-" + id when missing, and changes no other cart or table |
| CartController.AddToCartRejectsOtherRestaurant | backend/delivery_backend/src/main/java/com/backend/delivery_backend/controller/CartController.java:93-101 | an item of another restaurant than the cart's lines is refused with no change |
| CartController.AddLineConsistent | backend/delivery_backend/src/main/java/com/backend/delivery_backend/controller/CartController.java:84-106 | adding the line keeps the database invariant |
| CartController.AddLineSingleRestaurant | backend/delivery_backend/src/main/java/com/backend/delivery_backend/controller/CartController.java:92-106 | adding the line keeps every cart within one restaurant |
| CartController.AddToCartConsistent | backend/delivery_backend/src/main/java/com/backend/delivery_backend/controller/CartController.java:34-109 | the endpoint keeps the database invariant |
| CartController.CheckItem | backend/delivery_backend/src/main/java/com/backend/delivery_backend/controller/CartController.java:47-82 | the method's checks compute the item gate |
| CartController.AddToCart | backend/delivery_backend/src/main/java/com/backend/delivery_backend/controller/CartController.java:34-109 | the method computes the add and keeps the database valid |
| CartController.AddLine | backend/delivery_backend/src/main/java/com/backend/delivery_backend/controller/CartController.java:84-106 | the method loads or creates the cart, checks the restaurant and merges the line |
| CartController.BasketViewLines | backend/delivery_backend/src/main/java/com/backend/delivery_backend/controller/CartController.java:139-152 | the basket view has one entry per cart line, with the item's name, price, description and the line's quantity |
| CartController.ShowBasketSpec | backend/delivery_backend/src/main/java/com/backend/delivery_backend/controller/CartController.java:113-155 | the basket call: a missing customer or an empty cart gives an empty list and no change, a cart of a BANNED or SUSPENDED restaurant is refused and emptied, any other cart is listed with no change (ShowBasketOutcomes, ShowBasketRefusal and ShowBasketBlocked state these cases) |
| CartController.ShowCartSpec | backend/delivery_backend/src/main/java/com/backend/delivery_backend/controller/CartController.java:122-154 | the same call for the customer's cart, with the same three cases |
| CartController.ShowBasketOutcomes | backend/delivery_backend/src/main/java/com/backend/delivery_backend/controller/CartController.java:113-155 | an empty or missing cart gives an empty list and no change; a listing changes nothing and lists exactly the cart's lines; when a refusal happens is stated by ShowBasketBlocked |
| CartController.ShowBasketRefusal | backend/delivery_backend/src/main/java/com/backend/delivery_backend/controller/CartController.java:131-137 | a refusal is always "restaurant unavailable", empties that cart and changes no other cart or table; ShowBasketBlocked states that it happens exactly for a BANNED or SUSPENDED restaurant |
| CartController.ShowBasketBlocked | backend/delivery_backend/src/main/java/com/backend/delivery_backend/controller/CartController.java:131-154 | a non-empty cart is refused with "restaurant unavailable" exactly when the restaurant of its first line is BANNED or SUSPENDED, and is otherwise listed with nothing changed |
| CartController.ShowBasketClearsOnce | backend/delivery_backend/src/main/java/com/backend/delivery_backend/controller/CartController.java:131-137 | after a refusal the next call returns an empty list |
| CartController.ShowBasket | backend/delivery_backend/src/main/java/com/backend/delivery_backend/controller/CartController.java:113-155 | the method computes the basket call and keeps the database valid |
| CartController.ShowCart | backend/delivery_backend/src/main/java/com/backend/delivery_backend/controller/CartController.java:122-154 | the same once the customer is found |
| OrderService.MaskCardNumber | backend/delivery_backend/src/main/java/com/backend/delivery_backend/service/OrderService.java:97-100 | the mask is "****" for a null or shorter-than-4 number, else the fixed prefix and the last four characters |
| OrderService.MaskKeepsOnlyLastFour | backend/delivery_backend/src/main/java/com/backend/delivery_backend/service/OrderService.java:97-100 | two numbers with the same last four characters get the same mask |
| OrderService.MaskIdempotent | backend/delivery_backend/src/main/java/com/backend/delivery_backend/service/OrderService.java:97-100 | masking a mask changes nothing |
| OrderService.ItemsTotalRemove | backend/delivery_backend/src/main/java/com/backend/delivery_backend/service/OrderService.java:60-62 | the items total is one line's price × quantity plus the total of the rest |
| OrderService.ItemsTotalInsert | backend/delivery_backend/src/main/java/com/backend/delivery_backend/service/OrderService.java:60-62 | adding a new line adds its price × quantity |
| OrderService.ItemsTotalMerged | backend/delivery_backend/src/main/java/com/backend/delivery_backend/service/OrderService.java:60-62 | merging a quantity into a cart adds price × quantity to its total |
| OrderService.SumLines | backend/delivery_backend/src/main/java/com/backend/delivery_backend/service/OrderService.java:60-62 | the summing loop computes the items total |
| OrderService.NewPayment | backend/delivery_backend/src/main/java/com/backend/delivery_backend/service/OrderService.java:75-86 | the payment is PAID; card number, expiry and the "****" CVC are recorded exactly for CREDIT_CARD, in any ASCII case |
| OrderService.CreateOrderShape | backend/delivery_backend/src/main/java/com/backend/delivery_backend/service/OrderService.java:44-92 | the order is PENDING with no courier, holds a copy of the cart's items, totals Σ price × quantity + tip, records the tip only when positive; the cart is emptied and no other table changes |
| OrderService.CreateOrderSpec | backend/delivery_backend/src/main/java/com/backend/delivery_backend/service/OrderService.java:44-92 | createOrder on a snapshot; CreateOrderShape, CreateOrderRestaurant and CreateOrderConsistent state the order, payment and emptied cart it yields |
| OrderService.CreateOrderRestaurant | backend/delivery_backend/src/main/java/com/backend/delivery_backend/service/OrderService.java:54-58 | the order's restaurant is the restaurant of the cart's items |
| OrderService.CreateOrderFirstIrrelevant | backend/delivery_backend/src/main/java/com/backend/delivery_backend/service/OrderService.java:54-58 | which line is read as the first does not change the order |
| OrderService.CreateOrderConsistent | backend/delivery_backend/src/main/java/com/backend/delivery_backend/service/OrderService.java:39-95 | creating an order keeps the database invariant |
| OrderService.BuildOrder | backend/delivery_backend/src/main/java/com/backend/delivery_backend/service/OrderService.java:44-70 | the method builds the specified order from the cart |
| OrderService.BuildPayment | backend/delivery_backend/src/main/java/com/backend/delivery_backend/service/OrderService.java:75-86 | the method builds the specified payment |
| OrderService.SaveOrder | backend/delivery_backend/src/main/java/com/backend/delivery_backend/service/OrderService.java:72-92 | the order and payment rows are written and the customer's cart row emptied, nothing else |
| OrderService.CreateOrder | backend/delivery_backend/src/main/java/com/backend/delivery_backend/service/OrderService.java:39-95 | the method creates the order and payment, clears the cart and keeps the database valid |
| OrderService.CancelOrderSpec | backend/delivery_backend/src/main/java/com/backend/delivery_backend/service/OrderService.java:103-141 | a refused cancel changes nothing |
| OrderService.CancelOrderOk | backend/delivery_backend/src/main/java/com/backend/delivery_backend/service/OrderService.java:103-141 | a cancel succeeds exactly for an existing order of the caller in PENDING or IN_PROGRESS (any ASCII case), and then only its status becomes CANCELLED_BY_CUSTOMER |
| OrderService.CancelTwiceFails | backend/delivery_backend/src/main/java/com/backend/delivery_backend/service/OrderService.java:132-140 | cancelling a cancelled order fails and changes nothing |
| OrderService.CancellableEnumStatuses | backend/delivery_backend/src/main/java/com/backend/delivery_backend/service/OrderService.java:132-136 | of the enum statuses, exactly PENDING and IN_PROGRESS are cancellable |
| OrderService.CancelOrder | backend/delivery_backend/src/main/java/com/backend/delivery_backend/service/OrderService.java:103-141 | the method computes the cancel and keeps the database valid |
| OrderController.CreateOrderGate | backend/delivery_backend/src/main/java/com/backend/delivery_backend/controller/OrderController.java:37-79 | an admitted customer has a non-empty cart |
| OrderController.CreateOrderCallSpec | backend/delivery_backend/src/main/java/com/backend/delivery_backend/controller/OrderController.java:31-100 | a refused order changes nothing |
| OrderController.CreateOrderRefusesBlockedCustomer | backend/delivery_backend/src/main/java/com/backend/delivery_backend/controller/OrderController.java:43-53 | a banned or suspended customer is refused before the cart is looked at |
| OrderController.CreateOrderGateOk | backend/delivery_backend/src/main/java/com/backend/delivery_backend/controller/OrderController.java:37-79 | an order is admitted exactly for a known, unblocked customer with a non-empty cart whose restaurant is not blocked, with full card data when paying by CREDIT_CARD |
| OrderController.CreateOrderIgnoresCardUnlessCredit | backend/delivery_backend/src/main/java/com/backend/delivery_backend/controller/OrderController.java:70-92 | for other payment methods the card data does not change the outcome |
| OrderController.CreateOrderCallConsistent | backend/delivery_backend/src/main/java/com/backend/delivery_backend/controller/OrderController.java:31-100 | the endpoint keeps the database invariant |
| OrderController.CheckOrder | backend/delivery_backend/src/main/java/com/backend/delivery_backend/controller/OrderController.java:37-79 | the method's checks compute the gate and load the customer's cart |
| OrderController.CreateOrder | backend/delivery_backend/src/main/java/com/backend/delivery_backend/controller/OrderController.java:31-100 | the method computes the endpoint and keeps the database valid |
| OrderController.Decremented | backend/delivery_backend/src/main/java/com/backend/delivery_backend/controller/OrderController.java:173-178 | a line above one loses one unit, a line of one (or less) is dropped, and every other line is unchanged |
| OrderController.RemoveGate | backend/delivery_backend/src/main/java/com/backend/delivery_backend/controller/OrderController.java:151-171 | an admitted removal names a line of the customer's cart |
| OrderController.RemoveFromCartSpec | backend/delivery_backend/src/main/java/com/backend/delivery_backend/controller/OrderController.java:149-182 | a refused removal changes nothing |
| OrderController.RemoveAllFromCartSpec | backend/delivery_backend/src/main/java/com/backend/delivery_backend/controller/OrderController.java:185-213 | a refused removal changes nothing |
| OrderController.RemoveGateOutcomes | backend/delivery_backend/src/main/java/com/backend/delivery_backend/controller/OrderController.java:151-171 | unknown customer, empty cart, and admission are each characterised exactly |
| OrderController.RemoveAfterAddOne | backend/delivery_backend/src/main/java/com/backend/delivery_backend/controller/OrderController.java:173-178 | removing one unit after adding one unit restores the cart |
| OrderController.RemoveFromCartEffect | backend/delivery_backend/src/main/java/com/backend/delivery_backend/controller/OrderController.java:173-181 | a removal decrements exactly the customer's line and changes no other cart or table |
| OrderController.RemoveAllFromCartEffect | backend/delivery_backend/src/main/java/com/backend/delivery_backend/controller/OrderController.java:209-212 | remove-all drops the line whatever its quantity, keeps the other lines, and a second remove-all is refused |
| OrderController.RemoveLastUnitIsRemoveAll | backend/delivery_backend/src/main/java/com/backend/delivery_backend/controller/OrderController.java:173-178 | on a line of quantity one, the two removals agree |
| OrderController.RemoveConsistent | backend/delivery_backend/src/main/java/com/backend/delivery_backend/controller/OrderController.java:149-213 | both removals keep the database invariant |
| OrderController.LoadForRemoval | backend/delivery_backend/src/main/java/com/backend/delivery_backend/controller/OrderController.java:151-171 | the method's checks compute the removal gate and load the cart |
| OrderController.RemoveFromCart | backend/delivery_backend/src/main/java/com/backend/delivery_backend/controller/OrderController.java:149-182 | the method computes the removal and keeps the database valid |
| OrderController.RemoveAllFromCart | backend/delivery_backend/src/main/java/com/backend/delivery_backend/controller/OrderController.java:185-213 | the method computes remove-all and keeps the database valid |
| OrderController.StoredStatus | backend/delivery_backend/src/main/java/com/backend/delivery_backend/controller/OrderController.java:238-243 | "ACCEPTED" in any case is stored as IN_PROGRESS, any other string verbatim |
| OrderController.UpdateOrderStatusSpec | backend/delivery_backend/src/main/java/com/backend/delivery_backend/controller/OrderController.java:221-252 | a refused update changes nothing |
| OrderController.UpdateOrderStatusOk | backend/delivery_backend/src/main/java/com/backend/delivery_backend/controller/OrderController.java:226-246 | the update succeeds exactly for a given status and a known order, and then changes only that order's status |
| OrderController.UpdateOrderStatusForgetsOld | backend/delivery_backend/src/main/java/com/backend/delivery_backend/controller/OrderController.java:238-243 | the outcome does not depend on the old status: there is no transition check |
| OrderController.UpdateOrderStatusIdempotent | backend/delivery_backend/src/main/java/com/backend/delivery_backend/controller/OrderController.java:238-245 | repeating the same update changes nothing more |
| OrderController.UpdateOrderStatus | backend/delivery_backend/src/main/java/com/backend/delivery_backend/controller/OrderController.java:221-252 | the method computes the update and keeps the database valid |
| OrderController.ToggleRestaurantStatusSpec | backend/delivery_backend/src/main/java/com/backend/delivery_backend/controller/OrderController.java:300-314 | an unknown restaurant changes nothing |
| OrderController.ToggleTwiceRestores | backend/delivery_backend/src/main/java/com/backend/delivery_backend/controller/OrderController.java:306-308 | a toggle returns and stores the negated flag, changes nothing else, and a second toggle restores the store |
| OrderController.ToggleRestaurantStatus | backend/delivery_backend/src/main/java/com/backend/delivery_backend/controller/OrderController.java:300-314 | the method computes the toggle and keeps the database valid |
| CourierOrderController.Affiliation | backend/delivery_backend/src/main/java/com/backend/delivery_backend/controller/CourierOrderController.java:39-44 | a courier is admitted exactly when it exists and has a restaurant, which is returned |
| CourierOrderController.ActiveOrdersExact | backend/delivery_backend/src/main/java/com/backend/delivery_backend/controller/CourierOrderController.java:38-53 | an unaffiliated courier is refused; otherwise the list is exactly its restaurant's PENDING orders |
| CourierOrderController.ActiveOrdersSpec | backend/delivery_backend/src/main/java/com/backend/delivery_backend/controller/CourierOrderController.java:38-53 | the active-orders endpoint on a snapshot; ActiveOrdersExact states that it lists exactly the restaurant's PENDING orders |
| CourierOrderController.AcceptOrderSpec | backend/delivery_backend/src/main/java/com/backend/delivery_backend/controller/CourierOrderController.java:57-84 | a refused claim changes nothing |
| CourierOrderController.AcceptOrderOk | backend/delivery_backend/src/main/java/com/backend/delivery_backend/controller/CourierOrderController.java:57-84 | a claim succeeds exactly for an affiliated courier, an order of its restaurant and no courier yet; only that order's courier and status (IN_PROGRESS) change |
| CourierOrderController.AcceptOrderNeverReassigns | backend/delivery_backend/src/main/java/com/backend/delivery_backend/controller/CourierOrderController.java:73-76 | an order that has a courier is never claimed again |
| CourierOrderController.AcceptTwice | backend/delivery_backend/src/main/java/com/backend/delivery_backend/controller/CourierOrderController.java:73-81 | after a successful claim every further claim of that order fails, the same courier's with "already accepted" |
| CourierOrderController.AcceptedLeavesActiveList | backend/delivery_backend/src/main/java/com/backend/delivery_backend/controller/CourierOrderController.java:48-81 | a claimed order leaves its restaurant's active list and nothing else does |
| CourierOrderController.AcceptOrderConsistent | backend/delivery_backend/src/main/java/com/backend/delivery_backend/controller/CourierOrderController.java:57-84 | the claim keeps the database invariant |
| CourierOrderController.FindAffiliation | backend/delivery_backend/src/main/java/com/backend/delivery_backend/controller/CourierOrderController.java:39-44 | the method computes the affiliation check |
| CourierOrderController.GetActiveOrdersForCourier | backend/delivery_backend/src/main/java/com/backend/delivery_backend/controller/CourierOrderController.java:38-53 | the filtering loop computes the active list |
| CourierOrderController.AcceptOrder | backend/delivery_backend/src/main/java/com/backend/delivery_backend/controller/CourierOrderController.java:57-84 | the method computes the claim and keeps the database valid |
| CourierRequestService.ParseAction | backend/delivery_backend/src/main/java/com/backend/delivery_backend/service/CourierRestaurantRequestService.java:67-76 | ACCEPT and REJECT are recognised in any case and nothing else is |
| CourierRequestService.SendRequestSpec | backend/delivery_backend/src/main/java/com/backend/delivery_backend/service/CourierRestaurantRequestService.java:29-43 | a refused request changes nothing |
| CourierRequestService.RespondRequestSpec | backend/delivery_backend/src/main/java/com/backend/delivery_backend/service/CourierRestaurantRequestService.java:63-79 | a refused answer changes nothing |
| CourierRequestService.SendRequestAdds | backend/delivery_backend/src/main/java/com/backend/delivery_backend/service/CourierRestaurantRequestService.java:29-43 | a request is added exactly when courier and restaurant exist, as a new PENDING record under a fresh id, and nothing else changes |
| CourierRequestService.SendRequestTwice | backend/delivery_backend/src/main/java/com/backend/delivery_backend/service/CourierRestaurantRequestService.java:37-42 | sending twice adds two distinct PENDING requests: there is no duplicate check |
| CourierRequestService.AcceptOverwritesAffiliation | backend/delivery_backend/src/main/java/com/backend/delivery_backend/service/CourierRestaurantRequestService.java:67-71 | ACCEPT marks the request ACCEPTED and overwrites the courier's restaurant, leaving other requests alone |
| CourierRequestService.RejectKeepsAffiliation | backend/delivery_backend/src/main/java/com/backend/delivery_backend/service/CourierRestaurantRequestService.java:72-76 | REJECT marks the request REJECTED only; any other action is refused with no change |
| CourierRequestService.RejectAfterAccept | backend/delivery_backend/src/main/java/com/backend/delivery_backend/service/CourierRestaurantRequestService.java:63-79 | an answered request can be answered again: REJECT after ACCEPT overwrites the status but keeps the affiliation |
| CourierRequestService.SendRequestConsistent | backend/delivery_backend/src/main/java/com/backend/delivery_backend/service/CourierRestaurantRequestService.java:29-43 | sending keeps the database invariant |
| CourierRequestService.RespondRequestConsistent | backend/delivery_backend/src/main/java/com/backend/delivery_backend/service/CourierRestaurantRequestService.java:63-79 | answering keeps the database invariant |
| CourierRequestService.RequestStatusConsistent | backend/delivery_backend/src/main/java/com/backend/delivery_backend/service/CourierRestaurantRequestService.java:68-73 | overwriting a request's status keeps the database invariant |
| CourierRequestService.AffiliationConsistent | backend/delivery_backend/src/main/java/com/backend/delivery_backend/service/CourierRestaurantRequestService.java:69-71 | pointing a courier at an existing restaurant keeps the database invariant |
| CourierRequestService.SendRequest | backend/delivery_backend/src/main/java/com/backend/delivery_backend/service/CourierRestaurantRequestService.java:29-43 | the method computes the request and keeps the database valid |
| CourierRequestService.RespondRequest | backend/delivery_backend/src/main/java/com/backend/delivery_backend/service/CourierRestaurantRequestService.java:63-79 | the method computes the answer and keeps the database valid |
| CourierRequestController.RespondEndpointSpec | backend/delivery_backend/src/main/java/com/backend/delivery_backend/controller/CourierRestaurantRequestController.java:65-80 | the answer is forbidden exactly without ROLE_RESTAURANT_OWNER, done exactly when the service accepts it, and changes nothing otherwise |
| CourierRequestController.RespondIgnoresCaller | backend/delivery_backend/src/main/java/com/backend/delivery_backend/controller/CourierRestaurantRequestController.java:67-75 | any restaurant owner gets the same outcome: ownership of the request is not checked |
| CourierRequestController.CancelRequestSpec | backend/delivery_backend/src/main/java/com/backend/delivery_backend/controller/CourierRestaurantRequestController.java:106-140 | a refused cancel changes nothing |
| CourierRequestController.CancelRequestExact | backend/delivery_backend/src/main/java/com/backend/delivery_backend/controller/CourierRestaurantRequestController.java:117-132 | a cancel deletes exactly the PENDING requests of the pair and keeps every other request |
| CourierRequestController.CancelRequestTwice | backend/delivery_backend/src/main/java/com/backend/delivery_backend/controller/CourierRestaurantRequestController.java:117-126 | a second cancel finds no pending request and changes nothing |
| CourierRequestController.CancelRequestConsistent | backend/delivery_backend/src/main/java/com/backend/delivery_backend/controller/CourierRestaurantRequestController.java:106-140 | the cancel keeps the database invariant |
| CourierRequestController.RespondRequestEndpoint | backend/delivery_backend/src/main/java/com/backend/delivery_backend/controller/CourierRestaurantRequestController.java:65-80 | the method computes the endpoint and keeps the database valid |
| CourierRequestController.CancelRequest | backend/delivery_backend/src/main/java/com/backend/delivery_backend/controller/CourierRestaurantRequestController.java:106-140 | the deleting loop computes the cancel and keeps the database valid |
| Accounts.WithProfile | backend/delivery_backend/src/main/java/com/backend/delivery_backend/service/UserDetailsServiceImpl.java:172-177 | saving a user writes its shared columns into its own table only, and saving the same values changes nothing |
| Accounts.SaveUser | backend/delivery_backend/src/main/java/com/backend/delivery_backend/service/UserDetailsServiceImpl.java:172-177 | the method writes the user's row as specified |
| Accounts.WithProfileConsistent | backend/delivery_backend/src/main/java/com/backend/delivery_backend/service/UserDetailsServiceImpl.java:172-177 | saving a user with its e-mail unchanged keeps the database invariant |
| Accounts.UserByEmail | backend/delivery_backend/src/main/java/com/backend/delivery_backend/service/UserDetailsServiceImpl.java:152-158 | a found user exists and has that e-mail |
| Accounts.UserByEmailPriority | backend/delivery_backend/src/main/java/com/backend/delivery_backend/service/UserDetailsServiceImpl.java:152-158 | nobody is found only when no table has the e-mail; customers win over couriers, couriers over restaurants, restaurants over admins |
| Accounts.FindUser | backend/delivery_backend/src/main/java/com/backend/delivery_backend/service/UserDetailsServiceImpl.java:152-158 | the method computes the lookup |
| Accounts.ActiveOrders | backend/delivery_backend/src/main/java/com/backend/delivery_backend/controller/AdminController.java:100-123 | the active orders of an account are among its orders |
| Accounts.ActiveOrdersAntitone | backend/delivery_backend/src/main/java/com/backend/delivery_backend/controller/AdminController.java:92-97 | more final statuses leave fewer active orders |
| Accounts.Unlink | backend/delivery_backend/src/main/java/com/backend/delivery_backend/controller/AdminController.java:148 | an unlinked order no longer refers to the account |
| Cascades.UnlinkOrders | backend/delivery_backend/src/main/java/com/backend/delivery_backend/controller/AdminController.java:145-149 | the loop nulls the account on exactly its orders |
| Cascades.StripItems | backend/delivery_backend/src/main/java/com/backend/delivery_backend/controller/AdminController.java:166-178 | the loop removes the doomed items from every order's items |
| Cascades.DisassociateCouriers | backend/delivery_backend/src/main/java/com/backend/delivery_backend/controller/AdminController.java:184 | the loop releases exactly the restaurant's couriers |
| Cascades.RemoveFavorites | backend/delivery_backend/src/main/java/com/backend/delivery_backend/controller/AdminController.java:192-195 | the loop removes the restaurant from every customer's favourites |
| Cascades.CustomerPurgedExact | backend/delivery_backend/src/main/java/com/backend/delivery_backend/controller/AdminController.java:142-153 | the customer, its cart and its references are gone, and every order keeps its other columns |
| Cascades.CustomerPurged | backend/delivery_backend/src/main/java/com/backend/delivery_backend/controller/AdminController.java:142-153 | the store after a customer is deleted; CustomerPurgedExact states what is gone and what is kept |
| Cascades.UnlinkedRefs | backend/delivery_backend/src/main/java/com/backend/delivery_backend/controller/AdminController.java:145-149 | after unlinking, the orders' foreign keys hold without the deleted row |
| Cascades.CustomerPurgedIntegrity | backend/delivery_backend/src/main/java/com/backend/delivery_backend/controller/AdminController.java:142-153 | after the customer clean-up every foreign key holds |
| Cascades.CustomerPurgedCommits | backend/delivery_backend/src/main/java/com/backend/delivery_backend/controller/AdminController.java:142-153 | the customer clean-up always satisfies the foreign keys and the invariant |
| Cascades.RestaurantPurgedExact | backend/delivery_backend/src/main/java/com/backend/delivery_backend/controller/AdminController.java:154-199 | the restaurant, its items, requests, couriers' affiliation and favourites are gone; orders lose the restaurant and its items |
| Cascades.RestaurantPurged | backend/delivery_backend/src/main/java/com/backend/delivery_backend/controller/AdminController.java:154-199 | the store after a restaurant is deleted; RestaurantPurgedExact states what is gone and what is kept |
| Cascades.WithoutItemsRefs | backend/delivery_backend/src/main/java/com/backend/delivery_backend/controller/AdminController.java:166-181 | after stripping, the orders' foreign keys hold without the deleted items |
| Cascades.RestaurantPurgedOrderRefs | backend/delivery_backend/src/main/java/com/backend/delivery_backend/controller/AdminController.java:158-179 | after the restaurant clean-up every order names only surviving items, customers, restaurants and couriers |
| Cascades.RestaurantPurgedOtherRefs | backend/delivery_backend/src/main/java/com/backend/delivery_backend/controller/AdminController.java:165-197 | after the restaurant clean-up no menu item, favourite, courier, request or payment names a deleted row |
| Cascades.RestaurantPurgedRefs | backend/delivery_backend/src/main/java/com/backend/delivery_backend/controller/AdminController.java:154-199 | the restaurant clean-up leaves no order referring to the restaurant or its items |
| Cascades.RestaurantPurgedCommits | backend/delivery_backend/src/main/java/com/backend/delivery_backend/controller/AdminController.java:154-199 | the restaurant clean-up commits exactly when no cart holds one of its items, and then keeps the invariant |
| Cascades.CourierPurgedExact | backend/delivery_backend/src/main/java/com/backend/delivery_backend/controller/AdminController.java:200-207 | the courier and its requests are gone and no order refers to it; orders keep their other columns |
| Cascades.CourierPurged | backend/delivery_backend/src/main/java/com/backend/delivery_backend/controller/AdminController.java:200-207 | the store after a courier is deleted; CourierPurgedExact states what is gone and what is kept |
| Cascades.CourierPurgedCommits | backend/delivery_backend/src/main/java/com/backend/delivery_backend/controller/AdminController.java:200-207 | the courier clean-up always commits and keeps the invariant |
| Cascades.PurgeCustomer | backend/delivery_backend/src/main/java/com/backend/delivery_backend/controller/AdminController.java:142-153 | the method performs the customer clean-up and keeps the database valid |
| Cascades.PurgeRestaurant | backend/delivery_backend/src/main/java/com/backend/delivery_backend/controller/AdminController.java:154-199 | the method commits the restaurant clean-up when the keys allow it, else nothing |
| Cascades.PurgeCourier | backend/delivery_backend/src/main/java/com/backend/delivery_backend/controller/AdminController.java:200-207 | the method performs the courier clean-up and keeps the database valid |
| AdminController.Guarded | backend/delivery_backend/src/main/java/com/backend/delivery_backend/controller/AdminController.java:99-123 | an account with active orders is refused with no change |
| AdminController.DeleteUserSpec | backend/delivery_backend/src/main/java/com/backend/delivery_backend/controller/AdminController.java:67-216 | a refused deletion changes nothing |
| AdminController.DeleteUserOk | backend/delivery_backend/src/main/java/com/backend/delivery_backend/controller/AdminController.java:67-216 | a deletion succeeds only for another user, found, whose role matches its table, with no active order, and the result is exactly its clean-up |
| AdminController.DeleteUserEligible | backend/delivery_backend/src/main/java/com/backend/delivery_backend/controller/AdminController.java:67-216 | conversely, such a user is deleted with exactly its clean-up: always a customer or courier, a restaurant exactly when no cart holds one of its items; otherwise the flush refuses and nothing changes |
| AdminController.DeleteAdminRefused | backend/delivery_backend/src/main/java/com/backend/delivery_backend/controller/AdminController.java:124-128 | an ADMIN account is never deleted |
| AdminController.DeleteBlockedByActiveOrder | backend/delivery_backend/src/main/java/com/backend/delivery_backend/controller/AdminController.java:92-123 | one order outside DELIVERED, CANCELLED, CANCELLED_BY_CUSTOMER is reported and blocks the deletion with no change |
| AdminController.DeleteRoleMismatch | backend/delivery_backend/src/main/java/com/backend/delivery_backend/controller/AdminController.java:141-143 | a role string that does not match the user's table fails with a 500 and no change |
| AdminController.PurgedForConsistent | backend/delivery_backend/src/main/java/com/backend/delivery_backend/controller/AdminController.java:141-207 | a committed clean-up keeps the invariant |
| AdminController.DeleteUserConsistent | backend/delivery_backend/src/main/java/com/backend/delivery_backend/controller/AdminController.java:67-216 | the endpoint keeps the database invariant |
| AdminController.DeleteUserByEmail | backend/delivery_backend/src/main/java/com/backend/delivery_backend/controller/AdminController.java:67-216 | the method computes the deletion and keeps the database valid |
| AdminController.Purge | backend/delivery_backend/src/main/java/com/backend/delivery_backend/controller/AdminController.java:141-207 | the role's clean-up is committed exactly when it keeps the foreign keys |
| AdminController.PendingCancelledExact | backend/delivery_backend/src/main/java/com/backend/delivery_backend/controller/AdminController.java:350-361 | exactly the restaurant's PENDING, IN_PROGRESS and PREPARING orders become CANCELLED; every other order is unchanged |
| AdminController.PendingCancelled | backend/delivery_backend/src/main/java/com/backend/delivery_backend/controller/AdminController.java:350-361 | the orders after the suspension cascade; PendingCancelledExact states that exactly the open orders become CANCELLED |
| AdminController.PendingCancelledConsistent | backend/delivery_backend/src/main/java/com/backend/delivery_backend/controller/AdminController.java:350-361 | the bulk cancel keeps the invariant |
| AdminController.CancelPendingOrdersForRestaurant | backend/delivery_backend/src/main/java/com/backend/delivery_backend/controller/AdminController.java:350-361 | the loop computes the bulk cancel |
| AdminController.StringField | backend/delivery_backend/src/main/java/com/backend/delivery_backend/controller/AdminController.java:263 | a field is read exactly when present as a JSON string |
| AdminController.BoolField | backend/delivery_backend/src/main/java/com/backend/delivery_backend/controller/AdminController.java:307 | a field is read exactly when present as a JSON boolean |
| AdminController.SetIfNew | backend/delivery_backend/src/main/java/com/backend/delivery_backend/controller/AdminController.java:263-298 | a field changes, and is reported changed, only to a given value different from the current one |
| AdminController.GeneralUpdatesProperties | backend/delivery_backend/src/main/java/com/backend/delivery_backend/controller/AdminController.java:263-284 | name is set only to a non-empty string, status only to ACTIVE, SUSPENDED or BANNED and never to restrict the last active admin; the flag reports a change |
| AdminController.GeneralUpdates | backend/delivery_backend/src/main/java/com/backend/delivery_backend/controller/AdminController.java:263-284 | the name, phone and status written by updateUser; GeneralUpdatesProperties states which values each may take |
| AdminController.CustomerFields | backend/delivery_backend/src/main/java/com/backend/delivery_backend/controller/AdminController.java:287-290 | the customer step leaves the shared columns alone |
| AdminController.RestaurantFields | backend/delivery_backend/src/main/java/com/backend/delivery_backend/controller/AdminController.java:291-309 | the restaurant step leaves the shared columns alone |
| AdminController.CustomerFieldsProperties | backend/delivery_backend/src/main/java/com/backend/delivery_backend/controller/AdminController.java:287-290 | address, city and district follow the given strings and the flag reports a change |
| AdminController.RestaurantFieldsProperties | backend/delivery_backend/src/main/java/com/backend/delivery_backend/controller/AdminController.java:291-309 | address, city, district, hours, cuisine and approval follow the given values and the flag reports a change |
| AdminController.RoleChange | backend/delivery_backend/src/main/java/com/backend/delivery_backend/controller/AdminController.java:324-337 | a role change touches only the role |
| AdminController.RoleChangeNeverAdmin | backend/delivery_backend/src/main/java/com/backend/delivery_backend/controller/AdminController.java:324-337 | no user becomes or stops being ADMIN here; other roles change upper-cased |
| AdminController.RestaurantStep | backend/delivery_backend/src/main/java/com/backend/delivery_backend/controller/AdminController.java:291-315 | the restaurant step keeps the restaurant row |
| AdminController.SpecificUpdates | backend/delivery_backend/src/main/java/com/backend/delivery_backend/controller/AdminController.java:286-321 | the role step keeps the user's shared columns as the general step left them |
| AdminController.UpdateFound | backend/delivery_backend/src/main/java/com/backend/delivery_backend/controller/AdminController.java:259-347 | a found user is never reported missing |
| AdminController.UpdateUserCore | backend/delivery_backend/src/main/java/com/backend/delivery_backend/controller/AdminController.java:249-348 | the update reports "not found", with no change, exactly when no table has the e-mail |
| AdminController.SuspensionCascadeUnreachable | backend/delivery_backend/src/main/java/com/backend/delivery_backend/controller/AdminController.java:292-315 | as written, the update never changes any order |
| AdminController.UpdateUserAsWritten | backend/delivery_backend/src/main/java/com/backend/delivery_backend/controller/AdminController.java:249-348 | updateUser as written, with the previous status read after the new one is written; SuspensionCascadeUnreachable states that it never changes an order |
| AdminController.AsWrittenKeepsOrders | backend/delivery_backend/src/main/java/com/backend/delivery_backend/controller/AdminController.java:287-321 | as written, no user's update changes the orders |
| AdminController.SuspensionDiscrepancy | backend/delivery_backend/src/main/java/com/backend/delivery_backend/controller/AdminController.java:269-315 | suspending an active restaurant with a PENDING order leaves that order PENDING as written |
| AdminController.SuspensionCancelsOpenOrders | backend/delivery_backend/src/main/java/com/backend/delivery_backend/controller/AdminController.java:311-315 | with the previous status read first, the update's orders are the old ones or the restaurant's open orders cancelled |
| AdminController.IntendedCascade | backend/delivery_backend/src/main/java/com/backend/delivery_backend/controller/AdminController.java:292-315 | with the previous status read first, suspending an active restaurant cancels exactly its open orders |
| AdminController.UpdateUserSpec | backend/delivery_backend/src/main/java/com/backend/delivery_backend/controller/AdminController.java:249-348 | updateUser with the previous status read first, which the model uses; IntendedCascade states that suspending an active restaurant cancels exactly its open orders |
| AdminController.UpdateFoundConsistent | backend/delivery_backend/src/main/java/com/backend/delivery_backend/controller/AdminController.java:249-348 | the update keeps the invariant and the user's e-mail |
| AdminController.SpecificUpdatesConsistent | backend/delivery_backend/src/main/java/com/backend/delivery_backend/controller/AdminController.java:286-321 | the table-specific step keeps the invariant when the e-mail is kept |
| AdminController.UpdateFoundReplyExact | backend/delivery_backend/src/main/java/com/backend/delivery_backend/controller/AdminController.java:340-347 | "no changes" is reported exactly when the store is unchanged |
| AdminController.UpdateFoundNoChanges | backend/delivery_backend/src/main/java/com/backend/delivery_backend/controller/AdminController.java:340-347 | when no step reports a change, the store is as it was |
| AdminController.UpdateFoundChanges | backend/delivery_backend/src/main/java/com/backend/delivery_backend/controller/AdminController.java:340-347 | when a step reports a change, the store differs from what it was |
| AdminController.UpdateUser | backend/delivery_backend/src/main/java/com/backend/delivery_backend/controller/AdminController.java:249-348 | the method computes the corrected update and keeps the database valid |
| AdminController.UpdateFoundRow | backend/delivery_backend/src/main/java/com/backend/delivery_backend/controller/AdminController.java:259-347 | the method updates the found row as specified |
| AdminController.ApplySpecificUpdates | backend/delivery_backend/src/main/java/com/backend/delivery_backend/controller/AdminController.java:286-321 | the method applies the role step as specified |
| AdminController.ApproveRestaurantIdempotent | backend/delivery_backend/src/main/java/com/backend/delivery_backend/controller/AdminController.java:400-419 | approving sets approved of an existing restaurant only, and approving again reports "already approved" with no change |
| AdminController.ApproveRestaurantSpec | backend/delivery_backend/src/main/java/com/backend/delivery_backend/controller/AdminController.java:400-419 | approveRestaurant on a snapshot; ApproveRestaurantIdempotent states that it sets only the flag and that approving again reports "already approved" |
| AdminController.ApproveRestaurant | backend/delivery_backend/src/main/java/com/backend/delivery_backend/controller/AdminController.java:400-419 | the method computes the approval and keeps the database valid |
| ProfileController.Column | backend/delivery_backend/src/main/java/com/backend/delivery_backend/controller/ProfileController.java:90-109 | a key absent from the request leaves its column unchanged |
| ProfileController.CustomerProfileUpdatesExact | backend/delivery_backend/src/main/java/com/backend/delivery_backend/controller/ProfileController.java:89-95 | the update fails exactly on a value that is neither a string nor null, else sets name, phone, city, district and address from present keys and keeps e-mail, role and status |
| ProfileController.CustomerProfileUpdates | backend/delivery_backend/src/main/java/com/backend/delivery_backend/controller/ProfileController.java:89-95 | the customer after applyCustomerUpdates; CustomerProfileUpdatesExact states when it fails and what it sets |
| ProfileController.CourierProfileUpdatesExact | backend/delivery_backend/src/main/java/com/backend/delivery_backend/controller/ProfileController.java:97-100 | the same for a courier's name and phone |
| ProfileController.CourierProfileUpdates | backend/delivery_backend/src/main/java/com/backend/delivery_backend/controller/ProfileController.java:97-100 | the courier after applyCourierUpdates; CourierProfileUpdatesExact states when it fails and what it sets |
| ProfileController.RestaurantProfileUpdatesExact | backend/delivery_backend/src/main/java/com/backend/delivery_backend/controller/ProfileController.java:102-110 | the same for a restaurant's name, phone, city, district, address and hours |
| ProfileController.RestaurantProfileUpdates | backend/delivery_backend/src/main/java/com/backend/delivery_backend/controller/ProfileController.java:102-110 | the restaurant after applyRestaurantUpdates; RestaurantProfileUpdatesExact states when it fails and what it sets |
| ProfileController.UpdateProfileSpec | backend/delivery_backend/src/main/java/com/backend/delivery_backend/controller/ProfileController.java:62-87 | only a successful update changes the store |
| ProfileController.UpdateProfileNotFound | backend/delivery_backend/src/main/java/com/backend/delivery_backend/controller/ProfileController.java:62-87 | "not found" is returned exactly when no customer, courier or restaurant has the e-mail |
| ProfileController.UpdateProfileConsistent | backend/delivery_backend/src/main/java/com/backend/delivery_backend/controller/ProfileController.java:62-87 | the update keeps the invariant |
| ProfileController.UpdateProfile | backend/delivery_backend/src/main/java/com/backend/delivery_backend/controller/ProfileController.java:62-87 | the method computes the update and keeps the database valid |
| ProfileController.AddFavoriteSpec | backend/delivery_backend/src/main/java/com/backend/delivery_backend/controller/ProfileController.java:115-140 | only an actual addition changes the store |
| ProfileController.RemoveFavoriteSpec | backend/delivery_backend/src/main/java/com/backend/delivery_backend/controller/ProfileController.java:163-186 | only an actual removal changes the store |
| ProfileController.AddFavoriteExact | backend/delivery_backend/src/main/java/com/backend/delivery_backend/controller/ProfileController.java:115-140 | an unknown customer or restaurant is refused, an existing favourite is reported with no change, otherwise exactly that restaurant is added |
| ProfileController.CustomerEmailUnchanged | backend/delivery_backend/src/main/java/com/backend/delivery_backend/controller/ProfileController.java:136-137 | editing favourites keeps the customer found by its e-mail |
| ProfileController.AddThenRemove | backend/delivery_backend/src/main/java/com/backend/delivery_backend/controller/ProfileController.java:115-186 | removing a favourite just added restores the store |
| ProfileController.RemoveFavoriteExact | backend/delivery_backend/src/main/java/com/backend/delivery_backend/controller/ProfileController.java:163-186 | a non-favourite is reported with no change, otherwise exactly that restaurant is removed |
| ProfileController.FavoritesConsistent | backend/delivery_backend/src/main/java/com/backend/delivery_backend/controller/ProfileController.java:135-137 | favourites of existing restaurants keep the invariant |
| ProfileController.AddFavorite | backend/delivery_backend/src/main/java/com/backend/delivery_backend/controller/ProfileController.java:115-140 | the method computes the addition and keeps the database valid |
| ProfileController.RemoveFavorite | backend/delivery_backend/src/main/java/com/backend/delivery_backend/controller/ProfileController.java:163-186 | the method computes the removal and keeps the database valid |
| ProfileController.AttemptDelete | backend/delivery_backend/src/main/java/com/backend/delivery_backend/controller/ProfileController.java:204-293 | a refused self-deletion changes nothing |
| ProfileController.SelfAccount | backend/delivery_backend/src/main/java/com/backend/delivery_backend/controller/ProfileController.java:197-231 | the account is looked up as a customer, then a restaurant, then a courier, and exists in its table |
| ProfileController.DeleteAccountSpec | backend/delivery_backend/src/main/java/com/backend/delivery_backend/controller/ProfileController.java:190-296 | a refused self-deletion changes nothing |
| ProfileController.SelfCustomerDeletion | backend/delivery_backend/src/main/java/com/backend/delivery_backend/controller/ProfileController.java:200-208 | a customer deletes itself exactly when it has no order at all, because its orders keep pointing at it |
| ProfileController.SelfCustomerBlocked | backend/delivery_backend/src/main/java/com/backend/delivery_backend/controller/ProfileController.java:245-253 | a customer with any order cannot be removed: that order still refers to it |
| ProfileController.SelfCustomerCommits | backend/delivery_backend/src/main/java/com/backend/delivery_backend/controller/ProfileController.java:245-253 | a customer without orders can always be removed with its cart |
| ProfileController.SelfCourierDeletion | backend/delivery_backend/src/main/java/com/backend/delivery_backend/controller/ProfileController.java:279-292 | a courier deletes itself exactly when it has no order outside DELIVERED and CANCELLED, and is then unassigned and its requests deleted |
| ProfileController.SelfRestaurantDeletionCommits | backend/delivery_backend/src/main/java/com/backend/delivery_backend/controller/ProfileController.java:254-278 | a restaurant's self-deletion commits exactly when no order refers to it or its items and no cart holds them |
| ProfileController.SelfRestaurantBlocked | backend/delivery_backend/src/main/java/com/backend/delivery_backend/controller/ProfileController.java:254-278 | otherwise the foreign keys refuse it |
| ProfileController.SelfRestaurantRefs | backend/delivery_backend/src/main/java/com/backend/delivery_backend/controller/ProfileController.java:254-278 | under those conditions the clean-up satisfies the foreign keys |
| ProfileController.SelfRestaurantOrderRefs | backend/delivery_backend/src/main/java/com/backend/delivery_backend/controller/ProfileController.java:254-278 | with no order referring to the restaurant, the orders keep their foreign keys |
| ProfileController.ProfileStricterThanAdmin | backend/delivery_backend/src/main/java/com/backend/delivery_backend/controller/ProfileController.java:192-194 | a CANCELLED_BY_CUSTOMER order blocks a self-deletion but not an admin deletion; the admin's active set is contained in the self-deletion's |
| ProfileController.DeleteAccountConsistent | backend/delivery_backend/src/main/java/com/backend/delivery_backend/controller/ProfileController.java:190-296 | the endpoint keeps the invariant |
| ProfileController.DeleteAccount | backend/delivery_backend/src/main/java/com/backend/delivery_backend/controller/ProfileController.java:190-296 | the method computes the self-deletion and keeps the database valid |
| ProfileController.PurgeSelf | backend/delivery_backend/src/main/java/com/backend/delivery_backend/controller/ProfileController.java:243-293 | the role's clean-up is committed exactly when it keeps the foreign keys |
| RestaurantOwnerService.ScanCarts | backend/delivery_backend/src/main/java/com/backend/delivery_backend/service/RestaurantOwnerService.java:78-84 | the scan finds the item exactly when some cart holds it |
| RestaurantOwnerService.ScanOrders | backend/delivery_backend/src/main/java/com/backend/delivery_backend/service/RestaurantOwnerService.java:99-105 | the scan finds the item exactly when some order in PENDING to PICKED_UP (any ASCII case) holds it |
| RestaurantOwnerService.RemoveFromOrders | backend/delivery_backend/src/main/java/com/backend/delivery_backend/service/RestaurantOwnerService.java:169-176 | the loop removes the item from every order's items |
| RestaurantOwnerService.OwnedItemExact | backend/delivery_backend/src/main/java/com/backend/delivery_backend/service/RestaurantOwnerService.java:70-84 | an item passes exactly when it exists, belongs to the caller's restaurant and is in no cart; another restaurant's item is refused as not owned |
| RestaurantOwnerService.CheckOwnedItem | backend/delivery_backend/src/main/java/com/backend/delivery_backend/service/RestaurantOwnerService.java:70-84 | the method computes the ownership and cart checks |
| RestaurantOwnerService.Edited | backend/delivery_backend/src/main/java/com/backend/delivery_backend/service/RestaurantOwnerService.java:108-111 | the edit sets exactly name, description, price and availability |
| RestaurantOwnerService.UpdateMenuItemOutcome | backend/delivery_backend/src/main/java/com/backend/delivery_backend/service/RestaurantOwnerService.java:69-114 | an update succeeds exactly when the item passes and no active order holds it unless only availability changes; then only that item is edited |
| RestaurantOwnerService.UpdateMenuItemSpec | backend/delivery_backend/src/main/java/com/backend/delivery_backend/service/RestaurantOwnerService.java:69-114 | updateMenuItem on a snapshot; UpdateMenuItemOutcome states when it succeeds and what it writes |
| RestaurantOwnerService.AvailabilityOnlyUpdate | backend/delivery_backend/src/main/java/com/backend/delivery_backend/service/RestaurantOwnerService.java:86-111 | an availability-only change is never blocked by orders |
| RestaurantOwnerService.UpdateMenuItemIdempotent | backend/delivery_backend/src/main/java/com/backend/delivery_backend/service/RestaurantOwnerService.java:69-114 | repeating a successful update changes nothing more |
| RestaurantOwnerService.MenuItemUpdateConsistent | backend/delivery_backend/src/main/java/com/backend/delivery_backend/service/RestaurantOwnerService.java:108-113 | editing an item in place keeps the invariant |
| RestaurantOwnerService.UpdateMenuItemConsistent | backend/delivery_backend/src/main/java/com/backend/delivery_backend/service/RestaurantOwnerService.java:69-114 | the update keeps the invariant |
| RestaurantOwnerService.UpdateMenuItem | backend/delivery_backend/src/main/java/com/backend/delivery_backend/service/RestaurantOwnerService.java:69-114 | the method computes the update and keeps the database valid |
| RestaurantOwnerService.DeleteMenuItemOutcome | backend/delivery_backend/src/main/java/com/backend/delivery_backend/service/RestaurantOwnerService.java:117-180 | a delete succeeds exactly when the item passes and no active order holds it; then the item leaves the menu and every order |
| RestaurantOwnerService.DeleteMenuItemSpec | backend/delivery_backend/src/main/java/com/backend/delivery_backend/service/RestaurantOwnerService.java:117-180 | deleteMenuItem on a snapshot; DeleteMenuItemOutcome states when it succeeds and what it removes |
| RestaurantOwnerService.DeleteMenuItemTwice | backend/delivery_backend/src/main/java/com/backend/delivery_backend/service/RestaurantOwnerService.java:117-119 | deleting again reports the item missing with no change |
| RestaurantOwnerService.DeleteMenuItemConsistent | backend/delivery_backend/src/main/java/com/backend/delivery_backend/service/RestaurantOwnerService.java:117-180 | the delete keeps the invariant |
| RestaurantOwnerService.DeleteMenuItem | backend/delivery_backend/src/main/java/com/backend/delivery_backend/service/RestaurantOwnerService.java:117-180 | the method computes the delete and keeps the database valid |
| RestaurantOwnerService.ToggleAgreesAndRestores | backend/delivery_backend/src/main/java/com/backend/delivery_backend/service/RestaurantOwnerService.java:183-191 | the service toggle returns the new flag, agrees with the endpoint's toggle, and toggling twice restores the store |
| RestaurantOwnerService.ToggleRestaurantStatusSpec | backend/delivery_backend/src/main/java/com/backend/delivery_backend/service/RestaurantOwnerService.java:183-191 | toggleRestaurantStatus on a snapshot; ToggleAgreesAndRestores states that it returns the new flag and that toggling twice restores the store |
| RestaurantOwnerService.ToggleRestaurantStatus | backend/delivery_backend/src/main/java/com/backend/delivery_backend/service/RestaurantOwnerService.java:183-191 | the method computes the toggle and keeps the database valid |
| TextInput.Digits | frontend/delivery_frontend/src/pages/AdminRestaurantPage.js:63 | the filter keeps only digits, never lengthens, and keeps a digit string as it is |
| TextInput.Prefix | frontend/delivery_frontend/src/pages/AdminRestaurantPage.js:66 | the prefix has length min(length, n) and is the start of the string |
| TextInput.LeadingNumber | frontend/delivery_frontend/src/pages/CustomerCheckoutPage.js:73 | a number is read exactly when the text starts with a digit, and a digit string reads as its decimal value |
| AdminRestaurantPage.HoursPatternMeaning | frontend/delivery_frontend/src/pages/AdminRestaurantPage.js:56 | the hours part of the pattern accepts exactly one or two digits of value at most 23 |
| AdminRestaurantPage.MinutesPatternMeaning | frontend/delivery_frontend/src/pages/AdminRestaurantPage.js:56 | the minutes part accepts exactly two digits of value at most 59 |
| AdminRestaurantPage.ValidateTimeFormatMeaning | frontend/delivery_frontend/src/pages/AdminRestaurantPage.js:54-58 | the pattern accepts exactly H:MM or HH:MM clock times |
| AdminRestaurantPage.ValidateTimeFormat | frontend/delivery_frontend/src/pages/AdminRestaurantPage.js:54-58 | the time pattern; ValidateTimeFormatMeaning states that it accepts exactly H:MM or HH:MM clock times |
| AdminRestaurantPage.ClampHours | frontend/delivery_frontend/src/pages/AdminRestaurantPage.js:74-75 | hours above 23 become "00", others are kept |
| AdminRestaurantPage.ClampMinutes | frontend/delivery_frontend/src/pages/AdminRestaurantPage.js:78-79 | minutes above 59 become "00", others (a single digit always) are kept |
| AdminRestaurantPage.FormatTimeInput | frontend/delivery_frontend/src/pages/AdminRestaurantPage.js:61-87 | the output has at most 5 characters, ':' only at index 2, is empty exactly without digits, and keeps 1-2 digits unchanged |
| AdminRestaurantPage.FormatTimeInputDigits | frontend/delivery_frontend/src/pages/AdminRestaurantPage.js:61-87 | with 3 or more digits the output is the clamped hours, ':' and the clamped rest of the first four digits |
| AdminRestaurantPage.FormatTimeInputFourDigits | frontend/delivery_frontend/src/pages/AdminRestaurantPage.js:54-81 | with four or more digits the output always passes the time validator |
| AdminRestaurantPage.FormatTimeInputIdempotent | frontend/delivery_frontend/src/pages/AdminRestaurantPage.js:61-87 | formatting a formatted value changes nothing |
| AdminRestaurantPage.CredentialErrors | frontend/delivery_frontend/src/pages/AdminRestaurantPage.js:92-106 | e-mail and password errors are reported exactly outside edit mode on an invalid e-mail or empty password |
| AdminRestaurantPage.ValidateEmail | frontend/delivery_frontend/src/pages/AdminRestaurantPage.js:43-46 | a non-empty local part, one '@' and a domain with an inner '.'; CredentialErrors states that a new restaurant's e-mail is reported exactly when this fails |
| AdminRestaurantPage.ContactErrors | frontend/delivery_frontend/src/pages/AdminRestaurantPage.js:96-130 | phone is reported exactly unless 10 digits; name, city, district, address and cuisine exactly when blank |
| AdminRestaurantPage.ValidatePhone | frontend/delivery_frontend/src/pages/AdminRestaurantPage.js:48-52 | ten ASCII digits and nothing else; ContactErrors states that the form reports the phone exactly when this fails |
| AdminRestaurantPage.HoursErrors | frontend/delivery_frontend/src/pages/AdminRestaurantPage.js:120-126 | each of the hours is reported exactly when it is not a clock time |
| AdminRestaurantPage.ValidateFormCredentials | frontend/delivery_frontend/src/pages/AdminRestaurantPage.js:89-106 | the form reports e-mail and password exactly when creating with an invalid e-mail or an empty password |
| AdminRestaurantPage.ValidateFormContact | frontend/delivery_frontend/src/pages/AdminRestaurantPage.js:96-130 | the form reports the phone exactly unless it has 10 digits, and name, city, district, address and cuisine exactly when blank |
| AdminRestaurantPage.ValidateFormHours | frontend/delivery_frontend/src/pages/AdminRestaurantPage.js:120-133 | the form reports each business hour exactly when it is not a clock time |
| AdminRestaurantPage.ValidateFormEditMode | frontend/delivery_frontend/src/pages/AdminRestaurantPage.js:92-106 | edit mode reports the create-mode errors minus e-mail and password |
| AdminRestaurantPage.ValidateForm | frontend/delivery_frontend/src/pages/AdminRestaurantPage.js:89-133 | the set of reported fields; ValidateFormCredentials, ValidateFormContact, ValidateFormHours and ValidateFormEditMode state each field's condition |
| AdminRestaurantPage.FormattedHoursAccepted | frontend/delivery_frontend/src/pages/AdminRestaurantPage.js:245-253 | hours typed with four digits through the formatter are never reported |
| CheckoutPage.CardNumberInput | frontend/delivery_frontend/src/pages/CustomerCheckoutPage.js:109-113 | the card number is the first (at most) 16 digits of the input |
| CheckoutPage.CvvInput | frontend/delivery_frontend/src/pages/CustomerCheckoutPage.js:125-129 | the CVV is the first (at most) 3 digits of the input |
| CheckoutPage.ExpiryInput | frontend/delivery_frontend/src/pages/CustomerCheckoutPage.js:115-123 | the expiry has at most 5 characters and '/' only at index 2 |
| CheckoutPage.ExpiryInputDigits | frontend/delivery_frontend/src/pages/CustomerCheckoutPage.js:117-122 | its digits are the first four of the input, with one '/' exactly when there are more than two |
| CheckoutPage.CardInputsIdempotent | frontend/delivery_frontend/src/pages/CustomerCheckoutPage.js:109-129 | re-filtering a filtered card number, expiry or CVV changes nothing |
| CheckoutPage.SubtotalAppend | frontend/delivery_frontend/src/pages/CustomerCheckoutPage.js:66 | the subtotal of two item lists is the sum of their subtotals |
| CheckoutPage.SubtotalMonotone | frontend/delivery_frontend/src/pages/CustomerCheckoutPage.js:66 | with non-negative prices and quantities, a further line adds its price × quantity and never lowers the subtotal |
| CheckoutPage.Subtotal | frontend/delivery_frontend/src/pages/CustomerCheckoutPage.js:66 | Σ price × quantity over the cart lines; SubtotalAppend and SubtotalMonotone state how it grows with the lines |
| CheckoutPage.Fee | frontend/delivery_frontend/src/pages/CustomerCheckoutPage.js:86-90 | the fee is 0 exactly for 'pickup' and 60 TL for any other method |
| CheckoutPage.TipValueCases | frontend/delivery_frontend/src/pages/CustomerCheckoutPage.js:73 | a non-empty custom tip wins (unreadable gives 0, digits give their value), otherwise the preset, otherwise 0 |
| CheckoutPage.TipValue | frontend/delivery_frontend/src/pages/CustomerCheckoutPage.js:73 | the tip in force; TipValueCases states that a non-empty custom tip wins over the preset, which wins over 0 |
| CheckoutPage.CalculateOrderSummary | frontend/delivery_frontend/src/pages/CustomerCheckoutPage.js:65-76 | the summary's subtotal is the item sum and the tax is set; the total counts the tip even when the Tip row is hidden, so it agrees with the rows shown exactly with 'delivery' chosen or no tip |
| CheckoutPage.DeliveryMethodChanged | frontend/delivery_frontend/src/pages/CustomerCheckoutPage.js:82-94 | as written, the fee follows the method and the total is subtotal + fee + tax, without the tip |
| CheckoutPage.TipSelected | frontend/delivery_frontend/src/pages/CustomerCheckoutPage.js:96-100 | as written, the preset is set and the custom tip cleared |
| CheckoutPage.CustomTipChanged | frontend/delivery_frontend/src/pages/CustomerCheckoutPage.js:102-107 | as written, the custom tip is set and the preset cleared |
| CheckoutPage.ShownTip | frontend/delivery_frontend/src/pages/CustomerCheckoutPage.js:383-388 | the Tip row shows the tip in force with 'delivery' chosen and is hidden (no tip) otherwise |
| CheckoutPage.Recalculated | frontend/delivery_frontend/src/pages/CustomerCheckoutPage.js:65-76 | corrected recalculation: the total is the sum of the rows shown, and nothing else changes |
| CheckoutPage.DeliveryMethodChangedIntended | frontend/delivery_frontend/src/pages/CustomerCheckoutPage.js:82-94 | corrected: the fee follows the method; the total counts the tip for 'delivery' and not for a method whose Tip row is hidden |
| CheckoutPage.TipSelectedIntended | frontend/delivery_frontend/src/pages/CustomerCheckoutPage.js:96-100 | corrected: the total is the sum of the rows shown, and with 'delivery' chosen it is subtotal + fee + tax + the selected amount |
| CheckoutPage.CustomTipChangedIntended | frontend/delivery_frontend/src/pages/CustomerCheckoutPage.js:102-107 | corrected: the total is the sum of the rows shown with the new custom tip |
| CheckoutPage.IntendedHandlersKeepTotal | frontend/delivery_frontend/src/pages/CustomerCheckoutPage.js:65-107 | every corrected handler leaves the total equal to the rows shown (subtotal + fee + tax + shown tip); with 'delivery', a preset moves the total by new tip minus old |
| CheckoutPage.TipSelectionDiscrepancy | frontend/delivery_frontend/src/pages/CustomerCheckoutPage.js:96-100 | as written, with 'delivery' chosen, selecting a tip leaves the total with the previous tip: it agrees only when the tip is unchanged, and a 5 TL preset on a summary without a tip is 5 TL short |
| CheckoutPage.CustomTipDiscrepancy | frontend/delivery_frontend/src/pages/CustomerCheckoutPage.js:102-107 | as written, with 'delivery' chosen, typing a custom tip leaves the total with the previous tip: it agrees only when the tip is unchanged, and typing "5" into an empty field is 5 TL short |
| CheckoutPage.DeliveryMethodDiscrepancy | frontend/delivery_frontend/src/pages/CustomerCheckoutPage.js:82-94 | as written, the total agrees after a method change exactly when the Tip row is hidden or the tip is 0; switching back to 'delivery' with a 5 TL preset is 5 TL short |
| CheckoutPage.Checkout.constructor | frontend/delivery_frontend/src/pages/CustomerCheckoutPage.js:11-27 | the page starts with no items, 'delivery', no tip, a 3.99 TL fee and empty card fields |
| CheckoutPage.Checkout.LoadItems | frontend/delivery_frontend/src/pages/CustomerCheckoutPage.js:58-61 | loading the items computes the summary; with 'delivery' chosen, as on the first render, its total agrees |
| CheckoutPage.Checkout.HandleDeliveryMethodChange | frontend/delivery_frontend/src/pages/CustomerCheckoutPage.js:82-94 | the handler updates the page state as written |
| CheckoutPage.Checkout.HandleTipSelection | frontend/delivery_frontend/src/pages/CustomerCheckoutPage.js:96-100 | the handler updates the page state as written |
| CheckoutPage.Checkout.HandleCustomTipChange | frontend/delivery_frontend/src/pages/CustomerCheckoutPage.js:102-107 | the handler updates the page state as written |
| CheckoutPage.Checkout.HandleCardNumberChange | frontend/delivery_frontend/src/pages/CustomerCheckoutPage.js:109-113 | the card number field holds the filtered input |
| CheckoutPage.Checkout.HandleExpiryChange | frontend/delivery_frontend/src/pages/CustomerCheckoutPage.js:115-123 | the expiry field holds the formatted input |
| CheckoutPage.Checkout.HandleCvvChange | frontend/delivery_frontend/src/pages/CustomerCheckoutPage.js:125-129 | the CVV field holds the filtered input |

## Left out

- Floating point: backend prices, totals and tips are `double` in the
  source and integers here. The checkout tax `Math.round(subtotal * 0.12)`
  is not computed: the handlers take the tax as a parameter.
- Upper: the case mapping is ASCII only and ignores the JVM's default
  locale, and so is Domain.EqualsIgnoreCase. Java's `toUpperCase` maps every
  Unicode letter ("é" to "É", dotless "ı" to "I", "ß" to "SS") and, under a
  Turkish default locale, maps "i" to "İ"; `equalsIgnoreCase` compares
  Unicode case character by character. The model agrees with the source on
  strings whose letters are ASCII, under a non-Turkish locale.
- UpperOfUpperCase: holds of the ASCII mapping. Java would still change a
  string without ASCII lower-case letters that holds other lower-case
  letters, such as "é".
- NewPayment: "CREDIT_CARD" is matched in any ASCII case. Java's
  `equalsIgnoreCase` also matches spellings with non-ASCII case partners,
  such as "credıt_card" with a dotless ı; the model does not.
- CancelOrderOk: the cancellable statuses are matched in any ASCII case. In
  Java a stored "ın_progress" (dotless ı) also upper-cases to IN_PROGRESS
  and is cancelled, and under a Turkish default locale "in_progress"
  upper-cases to "İN_PROGRESS" and is refused; the model refuses the first
  and cancels the second.
- ScanOrders: the active statuses are matched in any ASCII case, with the
  same two differences from Java for statuses spelled with "ı" or "i".
- DeleteUserSpec: the role string is upper-cased in ASCII, and the caller's
  name is compared with the e-mail in ASCII case only. Under a Turkish
  default locale Java upper-cases "admin" and "courier" to "ADMİN" and
  "COURİER", which then match no role.
- RoleChange: the new and the original role are upper-cased and compared
  in ASCII, with the same difference under a Turkish default locale.
- TextInput.LeadingNumber, TipValueCases: `parseFloat` is modelled on whole numbers only. Signs,
  fractions, exponents and leading whitespace of a custom tip are not read.
- Clock and randomness: order and payment dates are not kept. UUID-based
  ids are parameters of the operations that create them.
- Concurrency: calls are sequential. The courier claim is a read followed
  by a write with no lock, and the model does not claim it is atomic.
- JPA aliasing and lazy loading: entities are value rows keyed by id.
  `Cart` is the only entity modelled as an object, loaded fresh and written
  back.
- Schema: the foreign keys the clean-ups rely on are modelled as the store
  invariant. A flush that violates them makes the whole transaction change
  nothing.
- Password reset tokens deleted with an account, and feedback and
  complaints: they live in tables outside this model.
- A null role and a null order status: the model's columns are never null.
  Only `Option` fields can be absent; a menu item's restaurant is such an
  `Option`, and its null case is modelled.
- Order deliveryType is kept as an opaque string. The `DeliveryType` enum is
  not part of this model.
- ServiceAddSpec: for a customer id that names no customer, the service
  saves a cart with a null customer, which `findByCustomerId` never finds
  again, so each later call starts a new cart. The model keys that cart by
  the id and finds it again, so a second call with an item of another
  restaurant is refused here and admitted in the source. CartService has no
  caller in this repository.
- CartService.AddToCart: computes ServiceAddSpec and has the same gap for a
  customer id that names no customer.
- Read-only listings are not modelled: getAssignedOrdersForCourier,
  getOrderHistory, getPastOrdersByRestaurant, getRequestsForRestaurant,
  getCourierRestaurantRelationships, getAllUsers, getPendingRestaurants,
  getProfile, getFavoriteRestaurants, getMenuItemsByRestaurant.
- createAdmin, rejectRestaurant and addMenuItem: they are outside the
  workflow modelled here.
- AdminController.applyGeneralUserUpdates (AdminController.java:364-383) is
  never called. updateUser inlines its own variant, which is modelled.
- Role and authentication annotations (`@PreAuthorize`) are not modelled,
  except the explicit authority check of the respond endpoint and the
  `hasRole('CUSTOMER')` check of addFavorite and removeFavorite, which
  answer Forbidden. The toggle endpoints have none.
- The texts of error messages, including the order id in an "active order"
  message, are not modelled. Errors are datatype constructors with the
  HTTP code the source returns.
- ProfileController.Column: a JSON null for a present key passes the cast
  check. In the source it then stores null in a nullable column (city,
  district), and for a NOT NULL column (name, phone, address,
  businessHoursStart, businessHoursEnd) the save fails with a 500. Here
  columns are never null, so in both cases the update answers success with
  that column unchanged.
- ValidateEmail is the e-mail pattern as `validateForm` uses it. It is not
  related to any backend e-mail check.
- The React rendering, toasts, routing and the mock order items the
  checkout page loads are left out. The summary shows the 3.99 TL initial
  fee with 'delivery' selected, and the model keeps that value as written.
- CourierService.assignRestaurantToCourier writes a courier's restaurant
  directly. It is another writer of the affiliation that this model does
  not include.

## Findings

| source | as written | input that shows it | evidently intended | confidence | as-written member | corrected member |
|---|---|---|---|---|---|---|
| backend/delivery_backend/src/main/java/com/backend/delivery_backend/controller/AdminController.java:281, 292, 312 | `previousAccountStatus` is read after the new status has already been written, so the suspension cascade can never fire | an ACTIVE restaurant owner with a PENDING order, updated with `{"status": "SUSPENDED"}`: the order stays PENDING | read the status before the general updates, so suspending a restaurant cancels its PENDING, IN_PROGRESS and PREPARING orders | high, not executed | AdminController.SuspensionDiscrepancy | AdminController.IntendedCascade |
| frontend/delivery_frontend/src/pages/CustomerCheckoutPage.js:65-76, 96-100 | `handleTipSelection` recomputes the total in the same render, when `tipAmount` still holds the previous tip | 'delivery' chosen and no tip; select the 5 TL preset: the total omits the 5 TL | the total includes the tip just selected | high, not executed | CheckoutPage.TipSelectionDiscrepancy | CheckoutPage.TipSelectedIntended |
| frontend/delivery_frontend/src/pages/CustomerCheckoutPage.js:65-76, 102-107 | `handleCustomTipChange` recomputes the total in the same render, when `customTip` still holds the previous text | 'delivery' chosen and no tip; type "5" as the custom tip: the total omits the 5 TL | the total includes the tip just typed | high, not executed | CheckoutPage.CustomTipDiscrepancy | CheckoutPage.CustomTipChangedIntended |
| frontend/delivery_frontend/src/pages/CustomerCheckoutPage.js:82-94 | `handleDeliveryMethodChange` sets the total to subtotal + fee + tax, dropping the tip | select the 5 TL preset, choose 'pickup', then 'delivery' again: the Tip row shows 5 TL and the total lacks it | with 'delivery' chosen the total keeps the tip | high, not executed | CheckoutPage.DeliveryMethodDiscrepancy | CheckoutPage.DeliveryMethodChangedIntended |
