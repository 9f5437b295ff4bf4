// pages/CustomerCheckoutPage.js: the checkout form's order summary and its
// card fields. The page keeps its state in React hooks; a handler reads the
// state of the render it belongs to, and its `set...` calls take effect
// together afterwards. Amounts are integers in kuruş (1/100 TL).
module CheckoutPage {
  import opened Domain
  import opened TextInput

  // ---------------------------------------------------------------------
  // Card input normalisers
  // ---------------------------------------------------------------------

  /** handleCardNumberChange: the digits typed, at most sixteen. */
  function CardNumberInput(value: string): (r: string)
    ensures AllDigits(r) && |r| <= 16
    ensures |r| == Min(|Digits(value)|, 16)
    ensures r == Digits(value)[..|r|]
  {
    Prefix(Digits(value), 16)
  }

  /** handleCVVChange: the digits typed, at most three. */
  function CvvInput(value: string): (r: string)
    ensures AllDigits(r) && |r| <= 3
    ensures |r| == Min(|Digits(value)|, 3)
    ensures r == Digits(value)[..|r|]
  {
    Prefix(Digits(value), 3)
  }

  /** handleExpiryChange: the first four digits typed, as "MM/YY" once a third digit is there. */
  function ExpiryInput(value: string): (r: string)
    ensures |r| <= 5
    ensures forall i :: 0 <= i < |r| && r[i] == '/' ==> i == 2
  {
    var digits := Prefix(Digits(value), 4);
    if |digits| > 2 then digits[..2] + "/" + digits[2..] else digits
  }

  /** Taking the '/' out of the expiry field gives back the first four digits typed. */
  lemma ExpiryInputDigits(value: string)
    ensures Digits(ExpiryInput(value)) == Prefix(Digits(value), 4)
    ensures |ExpiryInput(value)| == |Prefix(Digits(value), 4)| + (if |Prefix(Digits(value), 4)| > 2 then 1 else 0)
  {
    var d := Prefix(Digits(value), 4);
    if |d| > 2 {
      DigitsOfConcat(d[..2] + "/", d[2..]);
      DigitsOfConcat(d[..2], "/");
      DigitsOfNonDigit('/');
      assert d[..2] + d[2..] == d;
    }
  }

  /** Each normaliser leaves its own output alone, so re-rendering a field never changes it. */
  lemma CardInputsIdempotent(value: string)
    ensures CardNumberInput(CardNumberInput(value)) == CardNumberInput(value)
    ensures CvvInput(CvvInput(value)) == CvvInput(value)
    ensures ExpiryInput(ExpiryInput(value)) == ExpiryInput(value)
  {
    ExpiryInputDigits(value);
    var d := Prefix(Digits(value), 4);
    assert Prefix(Digits(ExpiryInput(value)), 4) == d;
    if |d| > 2 {
      assert ExpiryInput(ExpiryInput(value)) == d[..2] + "/" + d[2..];
    }
  }

  // ---------------------------------------------------------------------
  // The order summary
  // ---------------------------------------------------------------------

  /** One line of the order: unit price and quantity. */
  datatype Line = Line(price: int, quantity: int)

  /** `items.reduce((sum, item) => sum + item.price * item.quantity, 0)`. */
  function Subtotal(items: seq<Line>): int
  {
    if items == [] then 0 else items[0].price * items[0].quantity + Subtotal(items[1..])
  }

  /** The subtotal of two lists of lines together is the sum of their subtotals. */
  lemma {:induction false} SubtotalAppend(a: seq<Line>, b: seq<Line>)
    ensures Subtotal(a + b) == Subtotal(a) + Subtotal(b)
  {
    if a == [] {
      assert a + b == b;
    } else {
      assert (a + b)[1..] == a[1..] + b;
      SubtotalAppend(a[1..], b);
    }
  }

  /** With no negative price or quantity the subtotal is not negative, and adding a line never lowers it. */
  lemma {:induction false} SubtotalMonotone(items: seq<Line>, line: Line)
    requires forall i :: 0 <= i < |items| ==> items[i].price >= 0 && items[i].quantity >= 0
    requires line.price >= 0 && line.quantity >= 0
    ensures Subtotal(items) >= 0
    ensures Subtotal(items + [line]) == Subtotal(items) + line.price * line.quantity >= Subtotal(items)
  {
    if items != [] {
      SubtotalMonotone(items[1..], line);
    }
    SubtotalAppend(items, [line]);
    assert [line][1..] == [];
  }

  const PickupFee: int := 0
  const DeliveryFee: int := 6000
  /** The shipping fee the page shows before a delivery method is chosen (3.99 TL). */
  const InitialShippingFee: int := 399

  /** The shipping fee handleDeliveryMethodChange sets: none for 'pickup', 60 TL for any other method. */
  function Fee(deliveryMethod: string): (fee: int)
    ensures fee == PickupFee <==> deliveryMethod == "pickup"
    ensures fee == DeliveryFee <==> deliveryMethod != "pickup"
  {
    if deliveryMethod == "pickup" then PickupFee else DeliveryFee
  }

  /**
   * `customTip ? parseFloat(customTip) || 0 : tipAmount || 0`: a typed tip
   * wins over a preset one; a typed tip that is not a number counts as 0.
   */
  function TipValue(customTip: string, tipAmount: Option<int>): (tip: int)
  {
    if customTip != "" then
      match LeadingNumber(customTip)
      case Some(n) => 100 * n
      case None => 0
    else
      match tipAmount
      case Some(a) => a
      case None => 0
  }

  /** Which tip counts, in every case. */
  lemma TipValueCases(customTip: string, tipAmount: Option<int>)
    ensures customTip != "" ==> forall other: Option<int> :: TipValue(customTip, other) == TipValue(customTip, tipAmount)
    ensures customTip != "" && !IsDigit(customTip[0]) ==> TipValue(customTip, tipAmount) == 0
    ensures customTip != "" && AllDigits(customTip) ==> TipValue(customTip, tipAmount) == 100 * DecimalValue(customTip)
    ensures customTip == "" ==> TipValue(customTip, tipAmount) == if tipAmount.Some? then tipAmount.value else 0
  {
  }

  /** The state the order summary is rendered from. */
  datatype Summary = Summary(
    items: seq<Line>,
    deliveryMethod: string,
    tipAmount: Option<int>,
    customTip: string,
    subtotal: int,
    shippingFee: int,
    tax: int,
    total: int)

  /**
   * The tip the summary's Tip row shows: the row, like the tip section, is
   * rendered only while 'delivery' is chosen.
   */
  function ShownTip(s: Summary): (tip: int)
    ensures s.deliveryMethod == "delivery" ==> tip == TipValue(s.customTip, s.tipAmount)
    ensures s.deliveryMethod != "delivery" ==> tip == 0
  {
    if s.deliveryMethod == "delivery" then TipValue(s.customTip, s.tipAmount) else 0
  }

  /** What the total is meant to be: the sum of the rows the summary shows, subtotal, shipping, tax and tip. */
  predicate TotalAgrees(s: Summary)
  {
    s.total == s.subtotal + s.shippingFee + s.tax + ShownTip(s)
  }

  /**
   * calculateOrderSummary: the subtotal of the given lines, the tax, and the
   * total with the tip of the current render, whether or not the Tip row is
   * shown. The tax is `Math.round(subtotal * 0.12)` in floating point; the
   * model takes its value.
   */
  function CalculateOrderSummary(s: Summary, items: seq<Line>, tax: int): (s': Summary)
    ensures s'.subtotal == Subtotal(items) && s'.tax == tax
    ensures s'.(subtotal := s.subtotal, tax := s.tax, total := s.total) == s
    ensures TotalAgrees(s') <==> s.deliveryMethod == "delivery" || TipValue(s.customTip, s.tipAmount) == 0
  {
    s.(subtotal := Subtotal(items), tax := tax, total := Subtotal(items) + s.shippingFee + tax + TipValue(s.customTip, s.tipAmount))
  }

  /** handleDeliveryMethodChange, as written: the new fee, and a total of subtotal, fee and tax only. */
  function DeliveryMethodChanged(s: Summary, deliveryMethod: string): (s': Summary)
    ensures s'.shippingFee == Fee(deliveryMethod) && s'.deliveryMethod == deliveryMethod
    ensures s'.total == s.subtotal + Fee(deliveryMethod) + s.tax
  {
    s.(deliveryMethod := deliveryMethod, shippingFee := Fee(deliveryMethod), total := s.subtotal + Fee(deliveryMethod) + s.tax)
  }

  /** handleTipSelection, as written: the preset is stored and the typed tip cleared, but the total is computed with the tip of the render the click came from. */
  function TipSelected(s: Summary, amount: int, tax: int): (s': Summary)
    ensures s'.tipAmount == Some(amount) && s'.customTip == ""
  {
    CalculateOrderSummary(s, s.items, tax).(tipAmount := Some(amount), customTip := "")
  }

  /** handleCustomTipChange, as written: the typed tip is stored and the preset cleared; the total uses the previous tip. */
  function CustomTipChanged(s: Summary, value: string, tax: int): (s': Summary)
    ensures s'.customTip == value && s'.tipAmount == None
  {
    CalculateOrderSummary(s, s.items, tax).(customTip := value, tipAmount := None)
  }

  // The handlers as evidently intended: the total is recomputed from the
  // state the handler leaves, so it is always the sum of the rows shown.

  /** The summary recomputed from the state it holds: the total counts the tip exactly when the Tip row is shown. */
  function Recalculated(s: Summary, items: seq<Line>, tax: int): (s': Summary)
    ensures s'.subtotal == Subtotal(items) && s'.tax == tax
    ensures s'.(subtotal := s.subtotal, tax := s.tax, total := s.total) == s
    ensures TotalAgrees(s')
  {
    s.(subtotal := Subtotal(items), tax := tax, total := Subtotal(items) + s.shippingFee + tax + ShownTip(s))
  }

  function DeliveryMethodChangedIntended(s: Summary, deliveryMethod: string): (s': Summary)
    ensures s'.shippingFee == Fee(deliveryMethod) && s'.deliveryMethod == deliveryMethod
    ensures TotalAgrees(s')
    ensures deliveryMethod == "delivery" ==> s'.total == s.subtotal + DeliveryFee + s.tax + TipValue(s.customTip, s.tipAmount)
    ensures deliveryMethod != "delivery" ==> s'.total == s.subtotal + Fee(deliveryMethod) + s.tax
  {
    var changed := s.(deliveryMethod := deliveryMethod, shippingFee := Fee(deliveryMethod));
    changed.(total := changed.subtotal + changed.shippingFee + changed.tax + ShownTip(changed))
  }

  function TipSelectedIntended(s: Summary, amount: int, tax: int): (s': Summary)
    ensures s'.tipAmount == Some(amount) && s'.customTip == ""
    ensures s'.subtotal == Subtotal(s.items) && s'.tax == tax
    ensures TotalAgrees(s')
    ensures s.deliveryMethod == "delivery" ==> s'.total == Subtotal(s.items) + s.shippingFee + tax + amount
  {
    Recalculated(s.(tipAmount := Some(amount), customTip := ""), s.items, tax)
  }

  function CustomTipChangedIntended(s: Summary, value: string, tax: int): (s': Summary)
    ensures s'.customTip == value && s'.tipAmount == None
    ensures s'.subtotal == Subtotal(s.items) && s'.tax == tax
    ensures TotalAgrees(s')
  {
    Recalculated(s.(customTip := value, tipAmount := None), s.items, tax)
  }

  /**
   * The intended handlers keep the total equal to the rows shown whatever the
   * user does; with 'delivery' chosen, selecting a preset moves the total by
   * the difference between the new tip and the old.
   */
  lemma IntendedHandlersKeepTotal(s: Summary, deliveryMethod: string, amount: int, value: string, tax: int)
    ensures TotalAgrees(DeliveryMethodChangedIntended(s, deliveryMethod))
    ensures TotalAgrees(TipSelectedIntended(s, amount, tax))
    ensures TotalAgrees(CustomTipChangedIntended(s, value, tax))
    ensures TotalAgrees(s) && s.tax == tax && s.subtotal == Subtotal(s.items) && s.deliveryMethod == "delivery" ==>
      TipSelectedIntended(s, amount, tax).total - s.total == amount - TipValue(s.customTip, s.tipAmount)
  {
  }

  /**
   * As written, choosing a tip with 'delivery' chosen leaves the total with
   * the previous tip: it is short by the new tip and long by the old one.
   * The page's presets are 0, 1, 3 and 5 TL, so a 5 TL preset chosen on a
   * summary without a tip shows a total 5 TL short.
   */
  lemma TipSelectionDiscrepancy(s: Summary, amount: int, tax: int)
    requires s.deliveryMethod == "delivery"
    ensures var s' := TipSelected(s, amount, tax);
      && s'.total + amount == TipSelectedIntended(s, amount, tax).total + TipValue(s.customTip, s.tipAmount)
      && (TotalAgrees(s') <==> amount == TipValue(s.customTip, s.tipAmount))
    ensures s.tipAmount == None && s.customTip == "" ==>
      TipSelected(s, 500, tax).total + 500 == TipSelectedIntended(s, 500, tax).total
  {
    var s' := TipSelected(s, amount, tax);
    assert ShownTip(s') == amount;
  }

  /**
   * As written, typing a custom tip with 'delivery' chosen leaves the total
   * with the previous tip, as choosing a preset does: typing "5" into an
   * empty custom tip field shows a total 5 TL short.
   */
  lemma CustomTipDiscrepancy(s: Summary, value: string, tax: int)
    requires s.deliveryMethod == "delivery"
    ensures var s' := CustomTipChanged(s, value, tax);
      && s'.total + TipValue(value, None) == CustomTipChangedIntended(s, value, tax).total + TipValue(s.customTip, s.tipAmount)
      && (TotalAgrees(s') <==> TipValue(value, None) == TipValue(s.customTip, s.tipAmount))
    ensures s.tipAmount == None && s.customTip == "" ==>
      && !TotalAgrees(CustomTipChanged(s, "5", tax))
      && CustomTipChanged(s, "5", tax).total + 500 == CustomTipChangedIntended(s, "5", tax).total
  {
    var s' := CustomTipChanged(s, value, tax);
    assert ShownTip(s') == TipValue(value, None);
    TipValueCases("5", None);
    assert AllDigits("5");
    assert TipValue("5", None) == 500;
  }

  /**
   * As written, choosing 'delivery' drops the tip from the total while the
   * Tip row shows it again: with a 5 TL preset kept from before a switch to
   * 'pickup', switching back shows a total 5 TL short of its rows. Choosing
   * any other method hides the Tip row, and there the total agrees.
   */
  lemma DeliveryMethodDiscrepancy(s: Summary, deliveryMethod: string)
    ensures DeliveryMethodChanged(s, deliveryMethod).total + ShownTip(DeliveryMethodChanged(s, deliveryMethod))
      == DeliveryMethodChangedIntended(s, deliveryMethod).total
    ensures TotalAgrees(DeliveryMethodChanged(s, deliveryMethod)) <==>
      deliveryMethod != "delivery" || TipValue(s.customTip, s.tipAmount) == 0
    ensures s.tipAmount == Some(500) && s.customTip == "" && deliveryMethod == "delivery" ==>
      DeliveryMethodChanged(s, deliveryMethod).total + 500 == DeliveryMethodChangedIntended(s, deliveryMethod).total
  {
    var s' := DeliveryMethodChanged(s, deliveryMethod);
    assert ShownTip(s') == if deliveryMethod == "delivery" then TipValue(s.customTip, s.tipAmount) else 0;
  }

  // ---------------------------------------------------------------------
  // The page state
  // ---------------------------------------------------------------------

  /** The hooks of CheckoutPage that the order summary and the card fields use. */
  class Checkout {
    var orderItems: seq<Line>
    var deliveryMethod: string
    var tipAmount: Option<int>
    var customTip: string
    var subtotal: int
    var shippingFee: int
    var tax: int
    var total: int
    var cardNumber: string
    var cardExpiry: string
    var cardCvv: string

    function View(): Summary
      reads this
    {
      Summary(orderItems, deliveryMethod, tipAmount, customTip, subtotal, shippingFee, tax, total)
    }

    /** The `useState` initial values. */
    constructor ()
      ensures View() == Summary([], "delivery", None, "", 0, InitialShippingFee, 0, 0)
      ensures cardNumber == "" && cardExpiry == "" && cardCvv == ""
    {
      orderItems, deliveryMethod, tipAmount, customTip := [], "delivery", None, "";
      subtotal, shippingFee, tax, total := 0, InitialShippingFee, 0, 0;
      cardNumber, cardExpiry, cardCvv := "", "", "";
    }

    /** The effect that loads the lines and computes the summary; it runs on the first render, with 'delivery' chosen. */
    method LoadItems(items: seq<Line>, taxAmount: int)
      modifies this`orderItems, this`subtotal, this`tax, this`total
      ensures View() == CalculateOrderSummary(old(View()), items, taxAmount).(items := items)
      ensures TotalAgrees(View()) <==> deliveryMethod == "delivery" || TipValue(customTip, tipAmount) == 0
    {
      var tipValue := TipValue(customTip, tipAmount);
      orderItems := items;
      subtotal := Subtotal(items);
      tax := taxAmount;
      total := subtotal + shippingFee + taxAmount + tipValue;
    }

    /** handleDeliveryMethodChange. */
    method HandleDeliveryMethodChange(chosen: string)
      modifies this`deliveryMethod, this`shippingFee, this`total
      ensures View() == DeliveryMethodChanged(old(View()), chosen)
    {
      deliveryMethod := chosen;
      if chosen == "pickup" {
        shippingFee := 0;
      } else {
        shippingFee := 60 * 100;
      }
      total := subtotal + (if chosen == "pickup" then 0 else 60 * 100) + tax;
    }

    /** handleTipSelection; the recalculation reads the tip of the render the click came from. */
    method HandleTipSelection(amount: int, taxAmount: int)
      modifies this`tipAmount, this`customTip, this`subtotal, this`tax, this`total
      ensures View() == TipSelected(old(View()), amount, taxAmount)
    {
      var tipValue := TipValue(customTip, tipAmount);
      tipAmount := Some(amount);
      customTip := "";
      subtotal := Subtotal(orderItems);
      tax := taxAmount;
      total := subtotal + shippingFee + taxAmount + tipValue;
    }

    /** handleCustomTipChange; the recalculation reads the tip of the render the keystroke came from. */
    method HandleCustomTipChange(value: string, taxAmount: int)
      modifies this`tipAmount, this`customTip, this`subtotal, this`tax, this`total
      ensures View() == CustomTipChanged(old(View()), value, taxAmount)
    {
      var tipValue := TipValue(customTip, tipAmount);
      customTip := value;
      tipAmount := None;
      subtotal := Subtotal(orderItems);
      tax := taxAmount;
      total := subtotal + shippingFee + taxAmount + tipValue;
    }

    method HandleCardNumberChange(value: string)
      modifies this`cardNumber
      ensures cardNumber == CardNumberInput(value)
    {
      cardNumber := Prefix(Digits(value), 16);
    }

    method HandleExpiryChange(value: string)
      modifies this`cardExpiry
      ensures cardExpiry == ExpiryInput(value)
    {
      var digits := Prefix(Digits(value), 4);
      if |digits| > 2 {
        cardExpiry := digits[..2] + "/" + digits[2..];
      } else {
        cardExpiry := digits;
      }
    }

    method HandleCvvChange(value: string)
      modifies this`cardCvv
      ensures cardCvv == CvvInput(value)
    {
      cardCvv := Prefix(Digits(value), 3);
    }
  }
}
