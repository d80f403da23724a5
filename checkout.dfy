/**
 * Checkout settlement: the order receipt computed from the items the client
 * posts, with 18% tax, a fixed payment method and a fixed status.
 */
module Checkout {
  import opened Wrappers
  import opened Catalog
  import opened Cart

  /** The customer's contact details, echoed into the receipt. */
  datatype Customer = Customer(name: string, email: string)

  /** One receipt line: a checkout item with its price renamed `unitPrice`. */
  datatype OrderItem = OrderItem(name: string, quantity: int, unitPrice: real, subtotal: real)

  /**
   * The receipt. `orderId` and `timestamp` come from a random number and the
   * clock, so they are given to `Settle` rather than computed by it.
   */
  datatype Order = Order(
    orderId: string,
    customer: Customer,
    items: seq<OrderItem>,
    subtotal: real,
    tax: real,
    total: real,
    timestamp: string,
    paymentMethod: string,
    status: string)

  /** 18% GST. */
  const TaxRate: real := 0.18
  const CashOnDelivery: string := "Cash on Delivery"
  const Confirmed: string := "Confirmed"

  function EchoItem(item: PricedLine): (o: OrderItem) {
    OrderItem(item.name, item.quantity, item.price, item.subtotal)
  }

  /** `POST /api/checkout` without its side effect on the cart. */
  function Settle(cartItems: seq<PricedLine>, customer: Customer, orderId: string, timestamp: string): (o: Order)
    ensures o.orderId == orderId && o.customer == customer && o.timestamp == timestamp
    ensures o.paymentMethod == "Cash on Delivery" && o.status == "Confirmed"
    ensures |o.items| == |cartItems|
    ensures forall i :: 0 <= i < |cartItems| ==>
      && o.items[i].name == cartItems[i].name
      && o.items[i].quantity == cartItems[i].quantity
      && o.items[i].unitPrice == cartItems[i].price
      && o.items[i].subtotal == cartItems[i].subtotal
  {
    var total := SumSubtotals(cartItems);
    var tax := total * TaxRate;
    var finalTotal := total + tax;
    Order(orderId, customer, seq(|cartItems|, i requires 0 <= i < |cartItems| => EchoItem(cartItems[i])),
          total, tax, finalTotal, timestamp, CashOnDelivery, Confirmed)
  }

  /**
   * The receipt's amounts: the subtotal is the sum of the posted subtotals,
   * the tax 18% of it, and the total 118% of it, the receipt's own lines
   * adding up to the same subtotal.
   */
  lemma SettleAmounts(cartItems: seq<PricedLine>, customer: Customer, orderId: string, timestamp: string)
    ensures var o := Settle(cartItems, customer, orderId, timestamp);
      && o.subtotal == SumSubtotals(cartItems)
      && o.tax == o.subtotal * 18.0 / 100.0
      && o.total == o.subtotal + o.tax
      && o.total == o.subtotal * 118.0 / 100.0
  {
  }

  /** The posted subtotals are not checked: an empty item list settles to zero amounts. */
  lemma SettleEmpty(customer: Customer, orderId: string, timestamp: string)
    ensures var o := Settle([], customer, orderId, timestamp);
      o.items == [] && o.subtotal == 0.0 && o.tax == 0.0 && o.total == 0.0 && o.status == "Confirmed"
  {
  }

  /** With no negative subtotal posted, the amounts are ordered 0 <= tax <= subtotal <= total. */
  lemma SettleAmountsOrdered(cartItems: seq<PricedLine>, customer: Customer, orderId: string, timestamp: string)
    requires forall i :: 0 <= i < |cartItems| ==> cartItems[i].subtotal >= 0.0
    ensures var o := Settle(cartItems, customer, orderId, timestamp);
      0.0 <= o.tax <= o.subtotal <= o.total
  {
  }

  /**
   * Settling the view the client was shown: the receipt subtotal is the
   * view's total, whatever the order in which the view splits into parts.
   */
  lemma SettleViewParts(first: seq<PricedLine>, second: seq<PricedLine>, customer: Customer, orderId: string, timestamp: string)
    ensures Settle(first + second, customer, orderId, timestamp).subtotal
         == Settle(first, customer, orderId, timestamp).subtotal + Settle(second, customer, orderId, timestamp).subtotal
  {
    SumSubtotalsAppend(first, second);
  }

  /**
   * End to end: a cart of one pair of headphones at 99.99 and two cables at
   * 12.99 is viewed with subtotals 99.99 and 25.98 and total 125.97; settling
   * that view gives tax 22.6746 and total 148.6446 (before presentation rounding).
   */
  lemma CheckoutScenario()
    ensures var products := [Product(1, "Wireless Headphones", 99.99), Product(4, "USB Cable", 12.99)];
      var lines := [CartLine(7, "u1", 1, 1), CartLine(8, "u2", 1, 5), CartLine(9, "u1", 4, 2)];
      var view := CartView(lines, "u1", products);
      var o := Settle(view, Customer("Asha", "asha@example.com"), "K3J9Q2ZTX", "2024-01-01T00:00:00.000Z");
      && view == [PricedLine(7, 1, "Wireless Headphones", 99.99, 99.99), PricedLine(9, 2, "USB Cable", 12.99, 25.98)]
      && SumSubtotals(view) == 125.97
      && o.subtotal == 125.97 && o.tax == 22.6746 && o.total == 148.6446
  {
    var products := [Product(1, "Wireless Headphones", 99.99), Product(4, "USB Cable", 12.99)];
    var lines := [CartLine(7, "u1", 1, 1), CartLine(8, "u2", 1, 5), CartLine(9, "u1", 4, 2)];
    var mine := LinesOf(lines, "u1");
    assert mine == [lines[0], lines[2]];
    assert FindProduct(products, 1) == Some(products[0]);
    assert FindProduct(products, 4) == Some(products[1]);
    assert PriceLines(mine, products) == [PricedLine(7, 1, "Wireless Headphones", 99.99, 99.99), PricedLine(9, 2, "USB Cable", 12.99, 25.98)];
  }
}
