// model/Cart.java: a customer's basket, a map from menu item to quantity that
// `addItem` updates in place with `items.merge(item, quantity, Integer::sum)`.
module Carts {
  import opened Domain

  /**
   * The quantity map after `merge(item, quantity, Integer::sum)`: an absent
   * item is inserted with `quantity`, a present one gets the Java `int` sum.
   */
  function Merged(items: map<ItemId, int>, item: ItemId, quantity: int): map<ItemId, int>
  {
    items[item := if item in items then Wrap32(items[item] + quantity) else quantity]
  }

  /** The merge only ever adds the merged key: nothing is removed, no other key appears. */
  lemma MergedKeys(items: map<ItemId, int>, item: ItemId, quantity: int)
    ensures Merged(items, item, quantity).Keys == items.Keys + {item}
  {
  }

  /** An absent item is inserted with exactly the given quantity. */
  lemma MergedInsert(items: map<ItemId, int>, item: ItemId, quantity: int)
    requires item !in items
    ensures Merged(items, item, quantity)[item] == quantity
  {
  }

  /**
   * A present item is summed, not replaced; within Java `int` range the new
   * quantity is exactly old + new, whatever the sign of `quantity`.
   */
  lemma MergedAdditive(items: map<ItemId, int>, item: ItemId, quantity: int)
    requires item in items && IsInt32(items[item] + quantity)
    ensures item in Merged(items, item, quantity)
    ensures Merged(items, item, quantity)[item] == items[item] + quantity
  {
  }

  /** Every other line keeps its quantity. */
  lemma MergedFrame(items: map<ItemId, int>, item: ItemId, quantity: int, other: ItemId)
    requires other in items && other != item
    ensures other in Merged(items, item, quantity)
    ensures Merged(items, item, quantity)[other] == items[other]
  {
  }

  /** Two merges of the same item are one merge of the summed quantity. */
  lemma {:induction false} MergedTwice(items: map<ItemId, int>, item: ItemId, a: int, b: int)
    requires forall k :: k in items ==> IsInt32(items[k])
    requires IsInt32(a) && IsInt32(b)
    ensures Merged(Merged(items, item, a), item, b) == Merged(items, item, Wrap32(a + b))
  {
    var once := Merged(items, item, a);
    if item in items {
      var x := items[item];
      assert once[item] == Wrap32(x + a);
      Wrap32Assoc(x, a, b);
    } else {
      assert once[item] == a;
    }
  }

  /** `Integer::sum` is associative under wrap-around. */
  lemma Wrap32Assoc(x: int, a: int, b: int)
    ensures Wrap32(Wrap32(x + a) + b) == Wrap32(x + Wrap32(a + b))
  {
    var l := Wrap32(x + a) + b;
    var r := x + Wrap32(a + b);
    assert (l - r) % TwoTo32 == 0 by {
      assert (Wrap32(x + a) - (x + a)) % TwoTo32 == 0;
      assert (Wrap32(a + b) - (a + b)) % TwoTo32 == 0;
      ModDiff(Wrap32(x + a) - (x + a), Wrap32(a + b) - (a + b));
    }
    Wrap32Congruent(l, r);
  }

  lemma ModDiff(p: int, q: int)
    requires p % TwoTo32 == 0 && q % TwoTo32 == 0
    ensures (p - q) % TwoTo32 == 0
  {
    var kp := p / TwoTo32;
    var kq := q / TwoTo32;
    assert p == kp * TwoTo32;
    assert q == kq * TwoTo32;
    assert p - q == (kp - kq) * TwoTo32;
  }

  /** Values congruent modulo 2^32 wrap to the same `int`. */
  lemma Wrap32Congruent(l: int, r: int)
    requires (l - r) % TwoTo32 == 0
    ensures Wrap32(l) == Wrap32(r)
  {
    var k := (l - r) / TwoTo32;
    assert l - r == k * TwoTo32;
    assert l + TwoTo31 == (r + TwoTo31) + k * TwoTo32;
    ModShift(r + TwoTo31, k);
  }

  lemma ModShift(v: int, k: int)
    ensures (v + k * TwoTo32) % TwoTo32 == v % TwoTo32
  {
  }

  /** A cart row as a value. */
  datatype CartRec = CartRec(id: string, customer: Option<CustomerId>, items: map<ItemId, int>)

  class Cart {
    var id: string
    var customer: Option<CustomerId>
    var items: map<ItemId, int>

    /** The entity's current state as a row. */
    function Row(): CartRec
      reads this
    {
      CartRec(id, customer, items)
    }

    /** `new Cart()` followed by the id and customer setters: the map starts empty. */
    constructor (id: string, customer: Option<CustomerId>)
      ensures this.id == id && this.customer == customer
      ensures items == map[]
    {
      this.id := id;
      this.customer := customer;
      items := map[];
    }

    /** Cart.addItem. */
    method AddItem(item: ItemId, quantity: int)
      modifies this
      ensures items == Merged(old(items), item, quantity)
      ensures id == old(id) && customer == old(customer)
    {
      if item in items {
        items := items[item := Wrap32(items[item] + quantity)];
      } else {
        items := items[item := quantity];
      }
    }

    /** `getItems().keySet().iterator().next()`: some line of a non-empty cart, in no specified order. */
    method FirstItem() returns (item: ItemId)
      requires items != map[]
      ensures item in items
    {
      ghost var k := SomeKey(items);
      item :| item in items;
    }

    /** `getItems().clear()`. */
    method Clear()
      modifies this
      ensures items == map[]
      ensures id == old(id) && customer == old(customer)
    {
      items := map[];
    }

    /** `getItems().put(item, quantity)`. */
    method SetQuantity(item: ItemId, quantity: int)
      modifies this
      ensures items == old(items)[item := quantity]
      ensures id == old(id) && customer == old(customer)
    {
      items := items[item := quantity];
    }

    /** `getItems().remove(item)`. */
    method RemoveLine(item: ItemId)
      modifies this
      ensures items == old(items) - {item}
      ensures id == old(id) && customer == old(customer)
    {
      items := items - {item};
    }
  }
}
