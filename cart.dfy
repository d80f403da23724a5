/**
 * The cart collection as values: cart lines, the add-or-merge rule, deletion
 * by line id, deletion of a user's whole cart, and the priced view that joins
 * a user's lines with the catalogue.
 */
module Cart {
  import opened Wrappers
  import opened Seqs
  import opened Catalog

  /** The owner of a cart line (a user's document id, compared for equality only). */
  type UserId = string

  /** One record of the cart collection: `id` is the record's own key. */
  datatype CartLine = CartLine(id: nat, userId: UserId, productId: int, quantity: int)

  /**
   * One entry of a priced cart view. The client posts the view's entries back
   * unchanged as the items of a checkout request, so checkout reads this shape too.
   */
  datatype PricedLine = PricedLine(id: nat, quantity: int, name: string, price: real, subtotal: real)

  predicate IsPair(line: CartLine, userId: UserId, productId: int) {
    line.userId == userId && line.productId == productId
  }

  ghost predicate UniqueLineIds(lines: seq<CartLine>) {
    forall i, j :: 0 <= i < |lines| && 0 <= j < |lines| && i != j ==> lines[i].id != lines[j].id
  }

  /** The consistency rule of the cart: at most one line per (user, product). */
  ghost predicate AtMostOnePerPair(lines: seq<CartLine>) {
    forall i, j :: 0 <= i < |lines| && 0 <= j < |lines| && i != j ==>
      !IsPair(lines[j], lines[i].userId, lines[i].productId)
  }

  // ---------------------------------------------------------------- add or merge

  /** The cart lookup by user and product: the index of the first line of the pair, if any. */
  function FindLine(lines: seq<CartLine>, userId: UserId, productId: int): (r: Option<nat>)
    ensures r.Some? ==> r.value < |lines| && IsPair(lines[r.value], userId, productId)
    ensures r.Some? ==> forall k :: 0 <= k < r.value ==> !IsPair(lines[k], userId, productId)
    ensures r.None? ==> forall k :: 0 <= k < |lines| ==> !IsPair(lines[k], userId, productId)
  {
    if lines == [] then None
    else if IsPair(lines[0], userId, productId) then Some(0)
    else match FindLine(lines[1..], userId, productId)
      case None => None
      case Some(k) => Some(k + 1)
  }

  /**
   * `POST /api/cart`: add `quantity` to the existing line for the pair, or
   * create a line (with the fresh record id `freshId`) holding `quantity`.
   */
  function AddOrMerge(lines: seq<CartLine>, freshId: nat, userId: UserId, productId: int, quantity: int): (r: seq<CartLine>)
    ensures |lines| <= |r| <= |lines| + 1
    ensures forall k :: 0 <= k < |lines| ==> r[k].id == lines[k].id && r[k].userId == lines[k].userId && r[k].productId == lines[k].productId
    ensures exists k :: 0 <= k < |r| && IsPair(r[k], userId, productId)
  {
    match FindLine(lines, userId, productId)
    case Some(i) =>
      var r := lines[i := lines[i].(quantity := lines[i].quantity + quantity)];
      assert IsPair(r[i], userId, productId);
      r
    case None =>
      var r := lines + [CartLine(freshId, userId, productId, quantity)];
      assert IsPair(r[|lines|], userId, productId);
      r
  }

  /** Merge case: the pair's line gains `quantity`, nothing is created, nothing else moves. */
  lemma AddOrMergeMerges(lines: seq<CartLine>, freshId: nat, userId: UserId, productId: int, quantity: int, i: nat)
    requires AtMostOnePerPair(lines)
    requires i < |lines| && IsPair(lines[i], userId, productId)
    ensures var r := AddOrMerge(lines, freshId, userId, productId, quantity);
      && |r| == |lines|
      && r[i] == lines[i].(quantity := lines[i].quantity + quantity)
      && forall k :: 0 <= k < |lines| && k != i ==> r[k] == lines[k]
  {
    var found := FindLine(lines, userId, productId);
    assert found == Some(i);
  }

  /** Create case: exactly one line, holding `quantity`, is appended. */
  lemma AddOrMergeCreates(lines: seq<CartLine>, freshId: nat, userId: UserId, productId: int, quantity: int)
    requires forall k :: 0 <= k < |lines| ==> !IsPair(lines[k], userId, productId)
    ensures AddOrMerge(lines, freshId, userId, productId, quantity) == lines + [CartLine(freshId, userId, productId, quantity)]
  {
    var found := FindLine(lines, userId, productId);
    assert found == None;
  }

  /** Add-or-merge keeps both store invariants, given a record id not yet in use. */
  lemma AddOrMergeKeepsInvariant(lines: seq<CartLine>, freshId: nat, userId: UserId, productId: int, quantity: int)
    requires AtMostOnePerPair(lines) && UniqueLineIds(lines)
    requires forall k :: 0 <= k < |lines| ==> lines[k].id != freshId
    ensures AtMostOnePerPair(AddOrMerge(lines, freshId, userId, productId, quantity))
    ensures UniqueLineIds(AddOrMerge(lines, freshId, userId, productId, quantity))
  {
    var r := AddOrMerge(lines, freshId, userId, productId, quantity);
    match FindLine(lines, userId, productId)
    case Some(i) =>
      assert forall k :: 0 <= k < |r| ==> r[k].id == lines[k].id && r[k].userId == lines[k].userId && r[k].productId == lines[k].productId;
    case None =>
      assert forall k :: 0 <= k < |lines| ==> r[k] == lines[k];
  }

  /** The lines of the pair (user, product), in store order. */
  function LinesFor(lines: seq<CartLine>, userId: UserId, productId: int): (r: seq<CartLine>) {
    Filter(lines, (l: CartLine) => IsPair(l, userId, productId))
  }

  /** The total quantity the user holds of the product, over all its lines. */
  function QuantityOf(lines: seq<CartLine>, userId: UserId, productId: int): (q: int) {
    if lines == [] then 0
    else (if IsPair(lines[0], userId, productId) then lines[0].quantity else 0) + QuantityOf(lines[1..], userId, productId)
  }

  lemma {:induction false} QuantityOfAppend(lines: seq<CartLine>, line: CartLine, userId: UserId, productId: int)
    ensures QuantityOf(lines + [line], userId, productId)
         == QuantityOf(lines, userId, productId) + (if IsPair(line, userId, productId) then line.quantity else 0)
  {
    if lines != [] {
      assert (lines + [line])[1..] == lines[1..] + [line];
      QuantityOfAppend(lines[1..], line, userId, productId);
    }
  }

  lemma {:induction false} QuantityOfUpdate(lines: seq<CartLine>, i: nat, line: CartLine, userId: UserId, productId: int)
    requires i < |lines|
    ensures QuantityOf(lines[i := line], userId, productId)
         == QuantityOf(lines, userId, productId)
            - (if IsPair(lines[i], userId, productId) then lines[i].quantity else 0)
            + (if IsPair(line, userId, productId) then line.quantity else 0)
  {
    if i > 0 {
      assert lines[i := line][1..] == lines[1..][i - 1 := line];
      QuantityOfUpdate(lines[1..], i - 1, line, userId, productId);
    } else {
      assert lines[i := line][1..] == lines[1..];
    }
  }

  /**
   * Accumulation: adding `quantity` for a pair raises the pair's total by
   * exactly `quantity` and leaves the total of every other pair as it was.
   */
  lemma AddOrMergeAccumulates(lines: seq<CartLine>, freshId: nat, userId: UserId, productId: int, quantity: int,
                              otherUser: UserId, otherProduct: int)
    ensures QuantityOf(AddOrMerge(lines, freshId, userId, productId, quantity), otherUser, otherProduct)
         == QuantityOf(lines, otherUser, otherProduct)
            + (if otherUser == userId && otherProduct == productId then quantity else 0)
  {
    match FindLine(lines, userId, productId)
    case Some(i) =>
      QuantityOfUpdate(lines, i, lines[i].(quantity := lines[i].quantity + quantity), otherUser, otherProduct);
    case None =>
      QuantityOfAppend(lines, CartLine(freshId, userId, productId, quantity), otherUser, otherProduct);
  }

  /**
   * Two adds of the same product by the same user to a cart without it leave
   * exactly one line for the pair, holding the sum of both quantities.
   */
  lemma TwoAddsMakeOneLine(lines: seq<CartLine>, id1: nat, id2: nat, userId: UserId, productId: int, q1: int, q2: int)
    requires forall k :: 0 <= k < |lines| ==> !IsPair(lines[k], userId, productId)
    ensures var once := AddOrMerge(lines, id1, userId, productId, q1);
      LinesFor(AddOrMerge(once, id2, userId, productId, q2), userId, productId) == [CartLine(id1, userId, productId, q1 + q2)]
  {
    var line := CartLine(id1, userId, productId, q1);
    AddOrMergeCreates(lines, id1, userId, productId, q1);
    var once := lines + [line];
    assert once[|lines|] == line && forall k :: 0 <= k < |lines| ==> once[k] == lines[k];
    assert FindLine(once, userId, productId) == Some(|lines|);
    var twice := once[|lines| := line.(quantity := q1 + q2)];
    assert twice == lines + [line.(quantity := q1 + q2)];
    var keep := (l: CartLine) => IsPair(l, userId, productId);
    FilterConcat(lines, [line.(quantity := q1 + q2)], keep);
    FilterNone(lines, keep);
    assert [line.(quantity := q1 + q2)][1..] == [];
  }

  // ---------------------------------------------------------------- delete

  /** Any selection of lines keeps both store invariants. */
  lemma {:induction false} FilterKeepsInvariant(lines: seq<CartLine>, keep: CartLine -> bool)
    requires AtMostOnePerPair(lines) && UniqueLineIds(lines)
    ensures AtMostOnePerPair(Filter(lines, keep)) && UniqueLineIds(Filter(lines, keep))
    ensures forall k :: 0 <= k < |Filter(lines, keep)| ==> Filter(lines, keep)[k] in lines
  {
    if lines != [] {
      var rest := lines[1..];
      assert AtMostOnePerPair(rest) && UniqueLineIds(rest) by {
        forall a | 0 <= a < |rest| ensures rest[a] == lines[a + 1] { }
      }
      FilterKeepsInvariant(rest, keep);
      var tail := Filter(rest, keep);
      forall k | 0 <= k < |tail|
        ensures tail[k].id != lines[0].id && !IsPair(tail[k], lines[0].userId, lines[0].productId)
      {
        var m :| 0 <= m < |rest| && rest[m] == tail[k];
        assert lines[m + 1] == tail[k];
      }
    }
  }

  /** Deletion by record id: drop the line whose record id is `id`, if any. */
  function RemoveLine(lines: seq<CartLine>, id: nat): (r: seq<CartLine>)
    ensures |r| <= |lines|
    ensures forall k :: 0 <= k < |r| ==> r[k].id != id && r[k] in lines
    ensures forall k :: 0 <= k < |lines| && lines[k].id != id ==> lines[k] in r
  {
    Filter(lines, (l: CartLine) => l.id != id)
  }

  /** Removing an existing line removes only it; every other line keeps its place. */
  lemma RemoveLineRemovesOnly(lines: seq<CartLine>, i: nat)
    requires UniqueLineIds(lines)
    requires i < |lines|
    ensures RemoveLine(lines, lines[i].id) == lines[..i] + lines[i + 1..]
  {
    var id := lines[i].id;
    FilterDropsOne(lines, i, (l: CartLine) => l.id != id);
  }

  /** Removing an id that no line carries is a silent no-op. */
  lemma RemoveLineMissing(lines: seq<CartLine>, id: nat)
    requires forall k :: 0 <= k < |lines| ==> lines[k].id != id
    ensures RemoveLine(lines, id) == lines
  {
    FilterAll(lines, (l: CartLine) => l.id != id);
  }

  /** Deleting twice is deleting once. */
  lemma RemoveLineIdempotent(lines: seq<CartLine>, id: nat)
    ensures RemoveLine(RemoveLine(lines, id), id) == RemoveLine(lines, id)
  {
    FilterIdempotent(lines, (l: CartLine) => l.id != id);
  }

  // ---------------------------------------------------------------- per-user queries

  /** The cart query by user: the user's lines, in store order. */
  function LinesOf(lines: seq<CartLine>, userId: UserId): (r: seq<CartLine>)
    ensures |r| <= |lines|
    ensures forall k :: 0 <= k < |r| ==> r[k].userId == userId && r[k] in lines
    ensures forall k :: 0 <= k < |lines| && lines[k].userId == userId ==> lines[k] in r
  {
    Filter(lines, (l: CartLine) => l.userId == userId)
  }

  /** Bulk deletion by user: what remains is every other user's lines, in store order. */
  function RemoveUser(lines: seq<CartLine>, userId: UserId): (r: seq<CartLine>)
    ensures |r| <= |lines|
    ensures forall k :: 0 <= k < |r| ==> r[k].userId != userId && r[k] in lines
    ensures forall k :: 0 <= k < |lines| && lines[k].userId != userId ==> lines[k] in r
  {
    Filter(lines, (l: CartLine) => l.userId != userId)
  }

  /** After clearing, the user owns no line. */
  lemma RemoveUserEmptiesCart(lines: seq<CartLine>, userId: UserId)
    ensures LinesOf(RemoveUser(lines, userId), userId) == []
  {
    var rest := RemoveUser(lines, userId);
    FilterNone(rest, (l: CartLine) => l.userId == userId);
  }

  /** Clearing one user's cart leaves every other user's lines exactly as they were. */
  lemma RemoveUserKeepsOthers(lines: seq<CartLine>, userId: UserId, other: UserId)
    requires other != userId
    ensures LinesOf(RemoveUser(lines, userId), other) == LinesOf(lines, other)
  {
    FilterImplied(lines, (l: CartLine) => l.userId != userId, (l: CartLine) => l.userId == other);
  }

  // ---------------------------------------------------------------- priced view

  /** A line joined with its product: `subtotal = quantity * price`. */
  function Priced(line: CartLine, product: Product): (p: PricedLine) {
    PricedLine(line.id, line.quantity, product.name, product.price, line.quantity as real * product.price)
  }

  /** The view entry of one line: none when its product is no longer in the catalogue. */
  function PriceLine(line: CartLine, products: seq<Product>): (items: seq<PricedLine>) {
    match FindProduct(products, line.productId)
    case Some(p) => [Priced(line, p)]
    case None => []
  }

  /** The loop at be/server.js:130-142, as a function of the lines it visits. */
  function PriceLines(lines: seq<CartLine>, products: seq<Product>): (items: seq<PricedLine>)
    ensures |items| <= |lines|
    ensures forall k :: 0 <= k < |items| ==> items[k].subtotal == items[k].quantity as real * items[k].price
  {
    if lines == [] then [] else PriceLine(lines[0], products) + PriceLines(lines[1..], products)
  }

  lemma {:induction false} PriceLinesAppend(s: seq<CartLine>, t: seq<CartLine>, products: seq<Product>)
    ensures PriceLines(s + t, products) == PriceLines(s, products) + PriceLines(t, products)
  {
    if s == [] {
      assert s + t == t;
    } else {
      assert (s + t)[1..] == s[1..] + t;
      PriceLinesAppend(s[1..], t, products);
    }
  }

  lemma PriceLinesSnoc(s: seq<CartLine>, line: CartLine, products: seq<Product>)
    ensures PriceLines(s + [line], products) == PriceLines(s, products) + PriceLine(line, products)
  {
    PriceLinesAppend(s, [line], products);
    assert [line][1..] == [];
  }

  predicate Resolves(line: CartLine, products: seq<Product>) {
    FindProduct(products, line.productId).Some?
  }

  /**
   * Reference reading of the loop: keep the lines whose product resolves,
   * then price each kept line against its product.
   */
  lemma {:induction false} PriceLinesSelectsResolvable(lines: seq<CartLine>, products: seq<Product>)
    ensures var kept := Filter(lines, (l: CartLine) => Resolves(l, products));
      var items := PriceLines(lines, products);
      && |items| == |kept|
      && forall k :: 0 <= k < |kept| ==> items[k] == Priced(kept[k], FindProduct(products, kept[k].productId).value)
  {
    if lines != [] {
      var keep := (l: CartLine) => Resolves(l, products);
      var line := lines[0];
      PriceLinesSelectsResolvable(lines[1..], products);
      var restKept := Filter(lines[1..], keep);
      var restItems := PriceLines(lines[1..], products);
      assert PriceLines(lines, products) == PriceLine(line, products) + restItems;
      match FindProduct(products, line.productId)
      case Some(p) =>
        assert Filter(lines, keep) == [line] + restKept;
        assert PriceLine(line, products) == [Priced(line, p)];
      case None =>
        assert Filter(lines, keep) == restKept;
        assert PriceLine(line, products) == [];
    }
  }

  /** The priced view of a user's cart (`GET /api/cart/:userId`), without its total. */
  function CartView(lines: seq<CartLine>, userId: UserId, products: seq<Product>): (items: seq<PricedLine>)
    ensures |items| <= |LinesOf(lines, userId)|
    ensures forall k :: 0 <= k < |items| ==> items[k].subtotal == items[k].quantity as real * items[k].price
  {
    PriceLines(LinesOf(lines, userId), products)
  }

  /**
   * A store line appears in the user's view exactly when it is the user's and
   * its product is still in the catalogue.
   */
  lemma CartViewMembership(lines: seq<CartLine>, userId: UserId, products: seq<Product>, i: nat)
    requires UniqueLineIds(lines)
    requires i < |lines|
    ensures var items := CartView(lines, userId, products);
      (exists k :: 0 <= k < |items| && items[k].id == lines[i].id)
      <==> lines[i].userId == userId && Resolves(lines[i], products)
  {
    var mine := LinesOf(lines, userId);
    var kept := Filter(mine, (l: CartLine) => Resolves(l, products));
    var items := CartView(lines, userId, products);
    PriceLinesSelectsResolvable(mine, products);
    if k :| 0 <= k < |items| && items[k].id == lines[i].id {
      assert kept[k] in mine;
      var j :| 0 <= j < |lines| && lines[j] == kept[k];
      assert j == i;
    }
    if lines[i].userId == userId && Resolves(lines[i], products) {
      assert lines[i] in mine;
      assert lines[i] in kept by {
        var m :| 0 <= m < |mine| && mine[m] == lines[i];
      }
      var k :| 0 <= k < |kept| && kept[k] == lines[i];
      assert items[k].id == lines[i].id;
    }
  }

  predicate NoNegativeSubtotal(items: seq<PricedLine>) {
    forall i :: 0 <= i < |items| ==> items[i].subtotal >= 0.0
  }

  /**
   * The sum of the entries' subtotals, as the handlers fold it starting from
   * zero. With no negative subtotal, the sum is non-negative and at least
   * every single subtotal.
   */
  function SumSubtotals(items: seq<PricedLine>): (r: real)
    ensures NoNegativeSubtotal(items) ==>
      r >= 0.0 && forall i :: 0 <= i < |items| ==> items[i].subtotal <= r
  {
    if items == [] then 0.0 else items[0].subtotal + SumSubtotals(items[1..])
  }

  lemma {:induction false} SumSubtotalsAppend(s: seq<PricedLine>, t: seq<PricedLine>)
    ensures SumSubtotals(s + t) == SumSubtotals(s) + SumSubtotals(t)
  {
    if s == [] {
      assert s + t == t;
    } else {
      assert (s + t)[1..] == s[1..] + t;
      SumSubtotalsAppend(s[1..], t);
    }
  }

  /** A user whose cart has been cleared sees an empty view with total zero. */
  lemma ClearedCartViewIsEmpty(lines: seq<CartLine>, userId: UserId, products: seq<Product>)
    ensures CartView(RemoveUser(lines, userId), userId, products) == []
    ensures SumSubtotals(CartView(RemoveUser(lines, userId), userId, products)) == 0.0
  {
    RemoveUserEmptiesCart(lines, userId);
  }
}
