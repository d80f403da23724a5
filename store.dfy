/**
 * The cart collection as a mutable store: the request handlers that change
 * it (add-or-merge, delete by id, checkout's clearing) and the read-only
 * priced view.
 */
module Store {
  import opened Wrappers
  import opened Catalog
  import opened Cart
  import opened Checkout

  class CartStore {
    /** The cart records, in insertion order. */
    var lines: seq<CartLine>
    /** The record id the next created line receives. */
    var nextId: nat

    ghost predicate Valid()
      reads this
    {
      && UniqueLineIds(lines)
      && AtMostOnePerPair(lines)
      && forall k :: 0 <= k < |lines| ==> lines[k].id < nextId
    }

    constructor ()
      ensures Valid() && lines == [] && nextId == 0
    {
      lines := [];
      nextId := 0;
    }

    /**
     * `POST /api/cart`. Reports whether an existing line was merged into
     * ("Cart updated") rather than a line created ("Item added to cart").
     */
    method Add(userId: UserId, productId: int, quantity: int) returns (merged: bool)
      requires Valid()
      modifies this
      ensures Valid()
      ensures merged <==> exists k :: 0 <= k < |old(lines)| && IsPair(old(lines)[k], userId, productId)
      ensures lines == AddOrMerge(old(lines), old(nextId), userId, productId, quantity)
      ensures nextId == if merged then old(nextId) else old(nextId) + 1
    {
      AddOrMergeKeepsInvariant(lines, nextId, userId, productId, quantity);
      var existing := FindLine(lines, userId, productId);
      if existing.Some? {
        var i := existing.value;
        lines := lines[i := lines[i].(quantity := lines[i].quantity + quantity)];
        merged := true;
      } else {
        lines := lines + [CartLine(nextId, userId, productId, quantity)];
        nextId := nextId + 1;
        merged := false;
      }
    }

    /** `DELETE /api/cart/:id`; an unknown id changes nothing. */
    method Remove(id: nat)
      requires Valid()
      modifies this
      ensures Valid()
      ensures lines == RemoveLine(old(lines), id) && nextId == old(nextId)
    {
      FilterKeepsInvariant(lines, (l: CartLine) => l.id != id);
      lines := RemoveLine(lines, id);
    }

    /**
     * `GET /api/cart/:userId`: the user's lines whose product is still in the
     * catalogue, priced, and their total. Changes nothing.
     */
    method View(userId: UserId, products: seq<Product>) returns (items: seq<PricedLine>, total: real)
      ensures items == CartView(lines, userId, products)
      ensures total == SumSubtotals(items)
    {
      var mine := LinesOf(lines, userId);
      items := [];
      for k := 0 to |mine|
        invariant items == PriceLines(mine[..k], products)
      {
        var line := mine[k];
        assert mine[..k + 1] == mine[..k] + [line];
        PriceLinesSnoc(mine[..k], line, products);
        var product := FindProduct(products, line.productId);
        if product.Some? {
          var subtotal := line.quantity as real * product.value.price;
          assert PricedLine(line.id, line.quantity, product.value.name, product.value.price, subtotal) == Priced(line, product.value);
          items := items + [PricedLine(line.id, line.quantity, product.value.name, product.value.price, subtotal)];
          assert PriceLine(line, products) == [Priced(line, product.value)];
        } else {
          assert PriceLine(line, products) == [];
        }
      }
      assert mine[..|mine|] == mine;
      total := SumSubtotals(items);
    }

    /**
     * `POST /api/checkout`: settle the posted items and delete every line
     * of the user; no other user's line changes.
     */
    method Checkout(userId: UserId, cartItems: seq<PricedLine>, customer: Customer, orderId: string, timestamp: string)
      returns (order: Order)
      requires Valid()
      modifies this
      ensures Valid()
      ensures order == Settle(cartItems, customer, orderId, timestamp)
      ensures lines == RemoveUser(old(lines), userId) && nextId == old(nextId)
    {
      order := Settle(cartItems, customer, orderId, timestamp);
      FilterKeepsInvariant(lines, (l: CartLine) => l.userId != userId);
      lines := RemoveUser(lines, userId);
    }
  }
}
